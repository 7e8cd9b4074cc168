/** The typed accessor layer the game profile is read through: validators
    that check a JSON value's type tag, look up object members, and convert
    values to booleans, integers, strings, asset paths and registry entries.

    A `TryGet*` call reports success and writes its out-parameter; here it
    returns an `Attempt` holding both, and takes the out-parameter's value
    before the call so that what is left untouched is stated. An `Ensure*` call
    turns a failure into a fatal error (a log line, then `Window::Shutdown`,
    then a default return value); here it returns an `Outcome`. */
module ProfileInternal {
  import opened Json

  /** The flag a `TryGet*` call returns and the value of its out-parameter afterwards. */
  datatype Attempt<+T> = Attempt(ok: bool, out: T)

  /** What an `Ensure*` call does: return the value, or report a fatal error
      (log and shut the window down) and then return `fallback`. */
  datatype Outcome<+T> = Ok(value: T) | Fatal(fallback: T) {
    /** The value the C++ function returns, fatal or not. */
    function Returned(): T {
      if Ok? then value else fallback
    }
  }

  /** A `char const*`: `None` is the null pointer. */
  type CString = Option<string>

  /** Objects kept in the engine's name-keyed registries (`Sprites`,
      `SpriteSheets`, `Fonts`, `Animations`); their contents do not matter here. */
  type Sprite
  type SpriteSheet
  type Font
  type SpriteAnimationDef

  /** `Io::AssetPath`: where an asset lives. */
  datatype AssetPath = AssetPath(mount: string, id: UInt32, fileName: string)

  const IdKey: string := "Id"
  const MountKey: string := "Mount"

  /** Size in bytes of the buffer the expected-type list is formatted into. */
  const TypeListCapacity: nat := 80

  // ---------------------------------------------------------------------------
  // Integer narrowing

  /** Conversion of a `long` to a 32-bit `int`: the value modulo 2^32. */
  function WrapInt32(x: int): (r: Int32)
    ensures (r - x) % 0x1_0000_0000 == 0
    ensures -0x8000_0000 <= x < 0x8000_0000 ==> r == x
  {
    (x + 0x8000_0000) % 0x1_0000_0000 - 0x8000_0000
  }

  /** Conversion of an `unsigned long` to `uint32_t`: the value modulo 2^32. */
  function WrapUInt32(x: int): (r: UInt32)
    ensures (r - x) % 0x1_0000_0000 == 0
    ensures 0 <= x < 0x1_0000_0000 ==> r == x
  {
    x % 0x1_0000_0000
  }

  // ---------------------------------------------------------------------------
  // Type assertions

  /** `kTypeNames`: the name each type tag is logged under. */
  function TypeName(t: Type): (name: string)
    ensures 4 <= |name| <= 6
  {
    match t
    case NullType => "Null"
    case FalseType => "False"
    case TrueType => "True"
    case ObjectType => "Object"
    case ArrayType => "Array"
    case StringType => "String"
    case NumberType => "Number"
  }

  function AssertIs(v: Value, t: Type): (r: Outcome<Value>)
    ensures r.Ok? <==> TypeOf(v) == t
    ensures r.Ok? ==> r.value == v
    ensures r.Fatal? ==> r.fallback == Null
  {
    if TypeOf(v) == t then Ok(v) else Fatal(Null)
  }

  /** Every value passes the assertion for exactly one type: its own. */
  lemma AssertIsPassesForOneType(v: Value, t: Type)
    ensures AssertIs(v, TypeOf(v)).Ok?
    ensures AssertIs(v, t).Ok? ==> t == TypeOf(v)
  {
  }

  /** The loop over an expected-type list: is `actual` in it? */
  method FindType(actual: Type, types: seq<Type>) returns (found: bool)
    ensures found <==> actual in types
  {
    var i := 0;
    while i < |types|
      invariant 0 <= i <= |types|
      invariant actual !in types[..i]
    {
      if types[i] == actual {
        return true;
      }
      i := i + 1;
    }
    assert types[..i] == types;
    found := false;
  }

  /** The list of expected type names as the fatal message shows it:
      the names joined by ", ". */
  function TypeListText(types: seq<Type>): string
  {
    if |types| == 0 then ""
    else if |types| == 1 then TypeName(types[0])
    else TypeListText(types[..|types| - 1]) + ", " + TypeName(types[|types| - 1])
  }

  /** The `strcat` loop that formats the expected-type list. */
  method BuildTypeList(types: seq<Type>) returns (typeList: string)
    ensures typeList == TypeListText(types)
  {
    typeList := "";
    var first := true;
    for i := 0 to |types|
      invariant first <==> i == 0
      invariant typeList == TypeListText(types[..i])
    {
      if !first {
        typeList := typeList + ", ";
      }
      first := false;
      typeList := typeList + TypeName(types[i]);
      assert types[..i + 1][..i] == types[..i];
    }
    assert types[..|types|] == types;
  }

  predicate NoRepeats(types: seq<Type>) {
    forall i, j :: 0 <= i < j < |types| ==> types[i] != types[j]
  }

  lemma {:induction false} TypeListLengthBounds(types: seq<Type>)
    ensures |types| > 0 ==> 6 * |types| - 2 <= |TypeListText(types)|
    ensures |TypeListText(types)| <= 8 * |types|
  {
    if |types| > 1 {
      TypeListLengthBounds(types[..|types| - 1]);
    }
  }

  lemma {:induction false} RepeatFreeListFitsPool(types: seq<Type>, pool: set<Type>)
    requires NoRepeats(types)
    requires forall t :: t in types ==> t in pool
    ensures |types| <= |pool|
  {
    if |types| > 0 {
      var rest := types[1..];
      forall t | t in rest
        ensures t in pool - {types[0]}
      {
        var k :| 0 <= k < |rest| && rest[k] == t;
        assert types[k + 1] == t;
      }
      RepeatFreeListFitsPool(rest, pool - {types[0]});
    }
  }

  /** What one entry adds to the formatted list: its name and a ", ". */
  function Charge(t: Type): nat {
    |TypeName(t)| + 2
  }

  function TotalCharge(types: seq<Type>): nat {
    if |types| == 0 then 0 else TotalCharge(types[..|types| - 1]) + Charge(types[|types| - 1])
  }

  /** The formatted list is the names plus a two-character separator between each pair. */
  lemma {:induction false} TypeListLength(types: seq<Type>)
    requires |types| > 0
    ensures |TypeListText(types)| + 2 == TotalCharge(types)
  {
    if |types| > 1 {
      TypeListLength(types[..|types| - 1]);
    }
  }

  function ChargeIf(types: seq<Type>, t: Type): nat {
    if t in types then Charge(t) else 0
  }

  lemma ChargeIfAppend(prefix: seq<Type>, last: Type, t: Type)
    requires last !in prefix
    ensures ChargeIf(prefix + [last], t) == ChargeIf(prefix, t) + (if t == last then Charge(t) else 0)
  {
  }

  /** Without repeats, the total charge is that of the set of types listed. */
  lemma {:induction false} RepeatFreeCharge(types: seq<Type>)
    requires NoRepeats(types)
    ensures TotalCharge(types) ==
            ChargeIf(types, NullType) + ChargeIf(types, FalseType) + ChargeIf(types, TrueType) +
            ChargeIf(types, ObjectType) + ChargeIf(types, ArrayType) + ChargeIf(types, StringType) +
            ChargeIf(types, NumberType)
  {
    if |types| > 0 {
      var prefix, last := types[..|types| - 1], types[|types| - 1];
      assert types == prefix + [last];
      assert last !in prefix by {
        forall k | 0 <= k < |prefix|
          ensures prefix[k] != last
        {
          assert types[k] != types[|types| - 1];
        }
      }
      RepeatFreeCharge(prefix);
      ChargeIfAppend(prefix, last, NullType);
      ChargeIfAppend(prefix, last, FalseType);
      ChargeIfAppend(prefix, last, TrueType);
      ChargeIfAppend(prefix, last, ObjectType);
      ChargeIfAppend(prefix, last, ArrayType);
      ChargeIfAppend(prefix, last, StringType);
      ChargeIfAppend(prefix, last, NumberType);
    }
  }

  /** A list naming each type at most once fits the 80-byte buffer with its
      terminating NUL: it is at most 48 characters long, the length of the
      list of all seven types. */
  lemma TypeListFitsBuffer(types: seq<Type>)
    requires NoRepeats(types)
    ensures |TypeListText(types)| <= 48
    ensures |TypeListText(types)| + 1 <= TypeListCapacity
  {
    if |types| > 0 {
      TypeListLength(types);
      RepeatFreeCharge(types);
    }
  }

  /** The list of all seven types reaches that bound. */
  lemma AllTypesListIsLongest()
    ensures |TypeListText([NullType, FalseType, TrueType, ObjectType, ArrayType, StringType, NumberType])| == 48
  {
    var all := [NullType, FalseType, TrueType, ObjectType, ArrayType, StringType, NumberType];
    TypeListLength(all);
    RepeatFreeCharge(all);
  }

  /** A list of fourteen or more entries (so one with repeats) does not fit:
      `strcat` would write past the 80-byte buffer. */
  lemma LongTypeListOverflows(types: seq<Type>)
    requires |types| >= 14
    ensures |TypeListText(types)| + 1 > TypeListCapacity
  {
    TypeListLengthBounds(types);
  }

  /** Succeeds, returning `v`, when its type is one of `types`; otherwise
      formats `types` for the log and is fatal. */
  method AssertIsOneOf(v: Value, types: seq<Type>) returns (r: Outcome<Value>, typeList: string)
    ensures r.Ok? <==> TypeOf(v) in types
    ensures r.Ok? ==> r.value == v && typeList == ""
    ensures r.Fatal? ==> r.fallback == Null && typeList == TypeListText(types)
    ensures |types| == 1 ==> r == AssertIs(v, types[0])
  {
    var found := FindType(TypeOf(v), types);
    if found {
      return Ok(v), "";
    }
    typeList := BuildTypeList(types);
    r := Fatal(Null);
  }

  // ---------------------------------------------------------------------------
  // Members

  function TryGetMember(v: Value, member: string): (r: Attempt<Value>)
    ensures r.ok <==> HasMember(v, member)
    ensures r.ok ==> FirstMember(v, member, r.out)
    ensures !r.ok ==> r.out == Null
  {
    match FindMember(v, member)
    case Some(x) => Attempt(true, x)
    case None => Attempt(false, Null)
  }

  function EnsureGetMember(v: Value, member: string): (r: Outcome<Value>)
    ensures r.Ok? <==> HasMember(v, member)
    ensures r.Ok? ==> r.value == TryGetMember(v, member).out
    ensures r.Fatal? ==> r.fallback == Null
  {
    var got := TryGetMember(v, member);
    if got.ok then Ok(got.out) else Fatal(Null)
  }

  /** When the member is missing the type test still runs, on the `Null`
      returned by `EnsureGetMember`; the outcome is fatal either way. */
  function EnsureGetMemberOfType(v: Value, member: string, t: Type): (r: Outcome<Value>)
    ensures r.Ok? <==> HasMember(v, member) && TypeOf(TryGetMember(v, member).out) == t
    ensures r.Ok? ==> r.value == TryGetMember(v, member).out
    ensures r.Fatal? ==> r.fallback == Null
  {
    var result := EnsureGetMember(v, member);
    if TypeOf(result.Returned()) == t then result else Fatal(Null)
  }

  lemma MemberOfTypeIsAssertIsOnMember(v: Value, member: string, t: Type)
    ensures EnsureGetMemberOfType(v, member, t).Ok? <==>
            HasMember(v, member) && AssertIs(TryGetMember(v, member).out, t).Ok?
  {
  }

  /** The type list is formatted only when the value inspected (the member, or
      the `Null` returned for a missing one) has none of the listed types. */
  method EnsureGetMemberOfTypes(v: Value, member: string, types: seq<Type>)
    returns (r: Outcome<Value>, typeList: string)
    ensures r.Ok? <==> HasMember(v, member) && TypeOf(TryGetMember(v, member).out) in types
    ensures r.Ok? ==> r.value == TryGetMember(v, member).out
    ensures r.Fatal? ==> r.fallback == Null
    ensures typeList == if TypeOf(TryGetMember(v, member).out) in types then "" else TypeListText(types)
    ensures |types| == 1 ==> r == EnsureGetMemberOfType(v, member, types[0])
  {
    var result := EnsureGetMember(v, member);
    var found := FindType(TypeOf(result.Returned()), types);
    if found {
      return result, "";
    }
    typeList := BuildTypeList(types);
    r := Fatal(Null);
  }

  // ---------------------------------------------------------------------------
  // Booleans

  predicate IsBoolType(t: Type) {
    t == FalseType || t == TrueType
  }

  /** Only a boolean value is accepted; nothing is converted. */
  function TryGetBool(v: Value, outBool: bool): (r: Attempt<bool>)
    ensures r.ok <==> IsBoolType(TypeOf(v))
    ensures r.ok ==> r.out == (TypeOf(v) == TrueType)
    ensures !r.ok ==> r.out == outBool
  {
    if v.Bool? then Attempt(true, v.b) else Attempt(false, outBool)
  }

  function TryGetMemberBool(v: Value, member: string, outBool: bool): (r: Attempt<bool>)
    ensures !HasMember(v, member) ==> r == Attempt(false, outBool)
    ensures HasMember(v, member) ==> r == TryGetBool(TryGetMember(v, member).out, outBool)
  {
    match FindMember(v, member)
    case None => Attempt(false, outBool)
    case Some(x) => TryGetBool(x, outBool)
  }

  function EnsureGetBool(v: Value): (r: Outcome<bool>)
    ensures r.Ok? <==> IsBoolType(TypeOf(v))
    ensures r.Ok? ==> r.value == (TypeOf(v) == TrueType)
    ensures r.Fatal? ==> r.fallback == false
  {
    // the local's initial value is overwritten on success and unused otherwise
    var result := TryGetBool(v, false);
    if result.ok then Ok(result.out) else Fatal(false)
  }

  function EnsureGetMemberBool(v: Value, member: string): (r: Outcome<bool>)
    ensures r.Ok? <==> HasMember(v, member) && IsBoolType(TypeOf(TryGetMember(v, member).out))
    ensures r.Ok? ==> r.value == (TypeOf(TryGetMember(v, member).out) == TrueType)
    ensures r.Fatal? ==> r.fallback == false
  {
    var result := TryGetMemberBool(v, member, false);
    if result.ok then Ok(result.out) else Fatal(false)
  }

  // ---------------------------------------------------------------------------
  // Signed and unsigned integers
  //
  // `strtol` and `strtoul` stand for `SDL_strtol` and `SDL_strtoul` in base 10:
  // the `long` or `unsigned long` they return for a string. The end pointer
  // they store is never null, so the `endp != 0` test always passes and every
  // string converts.

  function TryGetInt(v: Value, strtol: string -> int, outInt: Int32): (r: Attempt<Int32>)
    ensures r.ok <==> IsInt(v) || TypeOf(v) == StringType
    ensures IsInt(v) ==> r.out == GetInt(v)
    ensures v.String? ==> r.out == WrapInt32(strtol(v.text))
    ensures !r.ok ==> r.out == outInt
  {
    if IsInt(v) then Attempt(true, GetInt(v))
    else if v.String? then Attempt(true, WrapInt32(strtol(v.text)))
    else Attempt(false, outInt)
  }

  function TryGetMemberInt(v: Value, member: string, strtol: string -> int, outInt: Int32): (r: Attempt<Int32>)
    ensures !HasMember(v, member) ==> r == Attempt(false, outInt)
    ensures HasMember(v, member) ==> r == TryGetInt(TryGetMember(v, member).out, strtol, outInt)
  {
    match FindMember(v, member)
    case None => Attempt(false, outInt)
    case Some(x) => TryGetInt(x, strtol, outInt)
  }

  function EnsureGetInt(v: Value, strtol: string -> int): (r: Outcome<Int32>)
    ensures r.Ok? <==> IsInt(v) || v.String?
    ensures r.Ok? ==> r.value == if v.String? then WrapInt32(strtol(v.text)) else GetInt(v)
    ensures r.Fatal? ==> r.fallback == 0
  {
    var result := TryGetInt(v, strtol, 0);
    if result.ok then Ok(result.out) else Fatal(0)
  }

  function EnsureGetMemberInt(v: Value, member: string, strtol: string -> int): (r: Outcome<Int32>)
    ensures r.Ok? <==> HasMember(v, member) && TryGetInt(TryGetMember(v, member).out, strtol, 0).ok
    ensures r.Ok? ==> r.value == TryGetInt(TryGetMember(v, member).out, strtol, 0).out
    ensures r.Fatal? ==> r.fallback == 0
  {
    var result := TryGetMemberInt(v, member, strtol, 0);
    if result.ok then Ok(result.out) else Fatal(0)
  }

  function TryGetUint(v: Value, strtoul: string -> int, outUint: UInt32): (r: Attempt<UInt32>)
    ensures r.ok <==> IsUint(v) || TypeOf(v) == StringType
    ensures IsUint(v) ==> r.out == GetUint(v)
    ensures v.String? ==> r.out == WrapUInt32(strtoul(v.text))
    ensures !r.ok ==> r.out == outUint
  {
    if IsUint(v) then Attempt(true, GetUint(v))
    else if v.String? then Attempt(true, WrapUInt32(strtoul(v.text)))
    else Attempt(false, outUint)
  }

  function TryGetMemberUint(v: Value, member: string, strtoul: string -> int, outUint: UInt32): (r: Attempt<UInt32>)
    ensures !HasMember(v, member) ==> r == Attempt(false, outUint)
    ensures HasMember(v, member) ==> r == TryGetUint(TryGetMember(v, member).out, strtoul, outUint)
  {
    match FindMember(v, member)
    case None => Attempt(false, outUint)
    case Some(x) => TryGetUint(x, strtoul, outUint)
  }

  function EnsureGetUint(v: Value, strtoul: string -> int): (r: Outcome<UInt32>)
    ensures r.Ok? <==> IsUint(v) || v.String?
    ensures r.Ok? ==> r.value == if v.String? then WrapUInt32(strtoul(v.text)) else GetUint(v)
    ensures r.Fatal? ==> r.fallback == 0
  {
    var result := TryGetUint(v, strtoul, 0);
    if result.ok then Ok(result.out) else Fatal(0)
  }

  function EnsureGetMemberUint(v: Value, member: string, strtoul: string -> int): (r: Outcome<UInt32>)
    ensures r.Ok? <==> HasMember(v, member) && TryGetUint(TryGetMember(v, member).out, strtoul, 0).ok
    ensures r.Ok? ==> r.value == TryGetUint(TryGetMember(v, member).out, strtoul, 0).out
    ensures r.Fatal? ==> r.fallback == 0
  {
    var result := TryGetMemberUint(v, member, strtoul, 0);
    if result.ok then Ok(result.out) else Fatal(0)
  }

  /** A non-negative number that fits an `int` reads the same through both accessors. */
  lemma IntAndUintAgreeOnSmallNaturals(v: Value, strtol: string -> int, strtoul: string -> int, outInt: Int32, outUint: UInt32)
    requires IsInt(v) && GetInt(v) >= 0
    ensures TryGetInt(v, strtol, outInt) == Attempt(true, GetInt(v))
    ensures TryGetUint(v, strtoul, outUint) == Attempt(true, GetInt(v) as UInt32)
  {
  }

  /** The two accessors differ on numbers: negative ones are ints only, those
      from 2^31 to 2^32 - 1 unsigned only, and non-integral ones neither. */
  lemma IntAndUintRangesDiffer(strtol: string -> int, strtoul: string -> int, x: real)
    ensures !TryGetUint(Num(Integer(-1)), strtoul, 5).ok && TryGetInt(Num(Integer(-1)), strtol, 5).out == -1
    ensures !TryGetInt(Num(Integer(0x8000_0000)), strtol, 5).ok
    ensures TryGetUint(Num(Integer(0x8000_0000)), strtoul, 5).out == 0x8000_0000
    ensures !TryGetInt(Num(Floating(x)), strtol, 5).ok && !TryGetUint(Num(Floating(x)), strtoul, 5).ok
  {
  }

  /** Any string is accepted as an integer, whatever its text, and what it
      reads as does not depend on what the out-parameter held. */
  lemma EveryStringConverts(s: string, strtol: string -> int, strtoul: string -> int,
                            outInt: Int32, outInt': Int32, outUint: UInt32, outUint': UInt32)
    ensures TryGetInt(String(s), strtol, outInt).ok
    ensures TryGetInt(String(s), strtol, outInt) == TryGetInt(String(s), strtol, outInt')
    ensures TryGetUint(String(s), strtoul, outUint).ok
    ensures TryGetUint(String(s), strtoul, outUint) == TryGetUint(String(s), strtoul, outUint')
  {
  }

  /** A parsed value outside 32 bits is narrowed modulo 2^32: a `long` of 2^32
      reads as int 0, and the `unsigned long` that "-1" parses to as 0xFFFF_FFFF. */
  lemma ParsedValuesAreNarrowed(s: string, strtol: string -> int, strtoul: string -> int, outInt: Int32, outUint: UInt32)
    ensures strtol(s) == 0x1_0000_0000 ==> TryGetInt(String(s), strtol, outInt).out == 0
    ensures strtol(s) == 0x8000_0000 ==> TryGetInt(String(s), strtol, outInt).out == -0x8000_0000
    ensures strtoul(s) == 0xFFFF_FFFF_FFFF_FFFF ==> TryGetUint(String(s), strtoul, outUint).out == 0xFFFF_FFFF
  {
  }

  // ---------------------------------------------------------------------------
  // Strings

  /** Only a string value is accepted; nothing is converted. */
  function TryGetString(v: Value, outString: CString): (r: Attempt<CString>)
    ensures r.ok <==> TypeOf(v) == StringType
    ensures r.ok ==> r.out == Some(v.text)
    ensures !r.ok ==> r.out == outString
  {
    if !v.String? then Attempt(false, outString) else Attempt(true, Some(v.text))
  }

  function TryGetMemberString(v: Value, member: string, outString: CString): (r: Attempt<CString>)
    ensures !HasMember(v, member) ==> r == Attempt(false, outString)
    ensures HasMember(v, member) ==> r == TryGetString(TryGetMember(v, member).out, outString)
  {
    match FindMember(v, member)
    case None => Attempt(false, outString)
    case Some(x) => TryGetString(x, outString)
  }

  function EnsureGetString(v: Value): (r: Outcome<CString>)
    ensures r.Ok? <==> v.String?
    ensures r.Ok? ==> r.value == Some(v.text)
    ensures r.Fatal? ==> r.fallback == None
  {
    var result := TryGetString(v, None);
    if result.ok then Ok(result.out) else Fatal(None)
  }

  function EnsureGetMemberString(v: Value, member: string): (r: Outcome<CString>)
    ensures r.Ok? <==> HasMember(v, member) && TryGetMember(v, member).out.String?
    ensures r.Ok? ==> r.value == Some(TryGetMember(v, member).out.text)
    ensures r.Fatal? ==> r.fallback == None
  {
    var result := TryGetMemberString(v, member, None);
    if result.ok then Ok(result.out) else Fatal(None)
  }

  // ---------------------------------------------------------------------------
  // Asset paths

  /** What `TryGetAssetPath` returns and leaves in its out-parameter, which
      held `before`. A string is a file name on the default mount. An object
      needs a uint-convertible `Id` and a string `Mount`; its file name is never
      written, and its `Id` is written even when `Mount` then fails. */
  function AssetPathAttempt(v: Value, strtoul: string -> int, before: AssetPath): (r: Attempt<AssetPath>)
    ensures v.String? ==> r == Attempt(true, AssetPath("", 0, v.text))
    ensures !v.String? && !v.Object? ==> r == Attempt(false, before)
    ensures v.Object? ==> (r.ok <==> TryGetMemberUint(v, IdKey, strtoul, 0).ok && TryGetMemberString(v, MountKey, None).ok)
    ensures v.Object? ==> r.out.fileName == before.fileName
    ensures v.Object? ==> r.out.id == TryGetMemberUint(v, IdKey, strtoul, before.id).out
    ensures v.Object? && !r.ok ==> r.out.mount == before.mount
    ensures v.Object? && r.ok ==> Some(r.out.mount) == TryGetMemberString(v, MountKey, None).out
  {
    if v.String? then Attempt(true, before.(mount := "", id := 0, fileName := v.text))
    else if !v.Object? then Attempt(false, before)
    else
      var id := TryGetMemberUint(v, IdKey, strtoul, before.id);
      var withId := before.(id := id.out);
      if !id.ok then Attempt(false, withId)
      else
        var mount := TryGetMemberString(v, MountKey, None);
        if !mount.ok then Attempt(false, withId)
        else Attempt(true, withId.(mount := mount.out.value))
  }

  /** An object with an `Id` but no `Mount` fails, yet its `Id` has been written. */
  lemma IdWrittenBeforeMountFails(strtoul: string -> int, before: AssetPath)
    ensures var r := AssetPathAttempt(Object([Member(IdKey, Num(Integer(7)))]), strtoul, before);
            !r.ok && r.out == before.(id := 7)
  {
  }

  /** A string asset path does not depend on what the out-parameter held. */
  lemma StringAssetPathOverwritesAll(s: string, strtoul: string -> int, before: AssetPath, before': AssetPath)
    ensures AssetPathAttempt(String(s), strtoul, before) == AssetPathAttempt(String(s), strtoul, before')
  {
  }

  /** The out-parameter of `TryGetAssetPath`, whose fields it writes one by one. */
  class MutableAssetPath {
    var mount: string
    var id: UInt32
    var fileName: string

    constructor (init: AssetPath)
      ensures Value() == init
    {
      mount, id, fileName := init.mount, init.id, init.fileName;
    }

    function Value(): AssetPath
      reads this
    {
      AssetPath(mount, id, fileName)
    }
  }

  method TryGetAssetPath(v: Value, strtoul: string -> int, outPath: MutableAssetPath) returns (ok: bool)
    modifies outPath
    ensures Attempt(ok, outPath.Value()) == AssetPathAttempt(v, strtoul, old(outPath.Value()))
  {
    if v.String? {
      outPath.mount := "";
      outPath.id := 0;
      outPath.fileName := v.text;
      return true;
    }
    if !v.Object? {
      return false;
    }
    var id := TryGetMemberUint(v, IdKey, strtoul, outPath.id);
    outPath.id := id.out;
    if !id.ok {
      return false;
    }
    var mount := TryGetMemberString(v, MountKey, None);
    if !mount.ok {
      return false;
    }
    outPath.mount := mount.out.value;
    return true;
  }

  method TryGetMemberAssetPath(v: Value, member: string, strtoul: string -> int, outPath: MutableAssetPath)
    returns (ok: bool)
    modifies outPath
    ensures !HasMember(v, member) ==> !ok && outPath.Value() == old(outPath.Value())
    ensures HasMember(v, member) ==>
      Attempt(ok, outPath.Value()) == AssetPathAttempt(TryGetMember(v, member).out, strtoul, old(outPath.Value()))
  {
    var found := FindMember(v, member);
    if found.None? {
      return false;
    }
    ok := TryGetAssetPath(found.value, strtoul, outPath);
  }

  /** `init` is the value of the freshly declared `result`. On failure the
      partially written result is what is returned. */
  method EnsureGetAssetPath(v: Value, strtoul: string -> int, init: AssetPath) returns (r: Outcome<AssetPath>)
    ensures r.Ok? <==> AssetPathAttempt(v, strtoul, init).ok
    ensures r.Returned() == AssetPathAttempt(v, strtoul, init).out
  {
    var result := new MutableAssetPath(init);
    var ok := TryGetAssetPath(v, strtoul, result);
    if !ok {
      return Fatal(result.Value());
    }
    return Ok(result.Value());
  }

  method EnsureGetMemberAssetPath(v: Value, member: string, strtoul: string -> int, init: AssetPath)
    returns (r: Outcome<AssetPath>)
    ensures r.Ok? <==> HasMember(v, member) && AssetPathAttempt(TryGetMember(v, member).out, strtoul, init).ok
    ensures r.Returned() == if HasMember(v, member) then AssetPathAttempt(TryGetMember(v, member).out, strtoul, init).out else init
  {
    var result := new MutableAssetPath(init);
    var ok := TryGetMemberAssetPath(v, member, strtoul, result);
    if ok {
      return Ok(result.Value());
    }
    return Fatal(result.Value());
  }

  // ---------------------------------------------------------------------------
  // Registry entries: a string value naming an entry of a global registry

  function TryGetSprite(v: Value, sprites: map<string, Sprite>, outSprite: Sprite): (r: Attempt<Sprite>)
    ensures r.ok <==> v.String? && v.text in sprites
    ensures r.ok ==> r.out == sprites[v.text]
    ensures !r.ok ==> r.out == outSprite
  {
    var spriteName := TryGetString(v, None);
    if !spriteName.ok then Attempt(false, outSprite)
    else if spriteName.out.value !in sprites then Attempt(false, outSprite)
    else Attempt(true, sprites[spriteName.out.value])
  }

  function TryGetMemberSprite(v: Value, member: string, sprites: map<string, Sprite>, outSprite: Sprite): (r: Attempt<Sprite>)
    ensures !HasMember(v, member) ==> r == Attempt(false, outSprite)
    ensures HasMember(v, member) ==> r == TryGetSprite(TryGetMember(v, member).out, sprites, outSprite)
  {
    var found := TryGetMember(v, member);
    if !found.ok then Attempt(false, outSprite) else TryGetSprite(found.out, sprites, outSprite)
  }

  /** `blank` is the default-constructed `Sprite` returned after a fatal error. */
  function EnsureGetSprite(v: Value, sprites: map<string, Sprite>, blank: Sprite): (r: Outcome<Sprite>)
    ensures r.Ok? <==> v.String? && v.text in sprites
    ensures r.Ok? ==> r.value == sprites[v.text]
    ensures r.Fatal? ==> r.fallback == blank
  {
    var result := TryGetSprite(v, sprites, blank);
    if !result.ok then Fatal(result.out) else Ok(result.out)
  }

  function EnsureGetMemberSprite(v: Value, member: string, sprites: map<string, Sprite>, blank: Sprite): (r: Outcome<Sprite>)
    ensures r.Ok? <==> HasMember(v, member) && TryGetSprite(TryGetMember(v, member).out, sprites, blank).ok
    ensures r.Ok? ==> r.value == sprites[TryGetMember(v, member).out.text]
    ensures r.Fatal? ==> r.fallback == blank
  {
    var result := TryGetMemberSprite(v, member, sprites, blank);
    if !result.ok then Fatal(result.out) else Ok(result.out)
  }

  function TryGetSpriteSheet(v: Value, sheets: map<string, SpriteSheet>, outSheet: SpriteSheet): (r: Attempt<SpriteSheet>)
    ensures r.ok <==> v.String? && v.text in sheets
    ensures r.ok ==> r.out == sheets[v.text]
    ensures !r.ok ==> r.out == outSheet
  {
    var sheetName := TryGetString(v, None);
    if !sheetName.ok then Attempt(false, outSheet)
    else if sheetName.out.value !in sheets then Attempt(false, outSheet)
    else Attempt(true, sheets[sheetName.out.value])
  }

  function TryGetMemberSpriteSheet(v: Value, member: string, sheets: map<string, SpriteSheet>, outSheet: SpriteSheet)
    : (r: Attempt<SpriteSheet>)
    ensures !HasMember(v, member) ==> r == Attempt(false, outSheet)
    ensures HasMember(v, member) ==> r == TryGetSpriteSheet(TryGetMember(v, member).out, sheets, outSheet)
  {
    var found := TryGetMember(v, member);
    if !found.ok then Attempt(false, outSheet) else TryGetSpriteSheet(found.out, sheets, outSheet)
  }

  function EnsureGetSpriteSheet(v: Value, sheets: map<string, SpriteSheet>, blank: SpriteSheet): (r: Outcome<SpriteSheet>)
    ensures r.Ok? <==> v.String? && v.text in sheets
    ensures r.Ok? ==> r.value == sheets[v.text]
    ensures r.Fatal? ==> r.fallback == blank
  {
    var result := TryGetSpriteSheet(v, sheets, blank);
    if !result.ok then Fatal(result.out) else Ok(result.out)
  }

  function EnsureGetMemberSpriteSheet(v: Value, member: string, sheets: map<string, SpriteSheet>, blank: SpriteSheet)
    : (r: Outcome<SpriteSheet>)
    ensures r.Ok? <==> HasMember(v, member) && TryGetSpriteSheet(TryGetMember(v, member).out, sheets, blank).ok
    ensures r.Ok? ==> r.value == sheets[TryGetMember(v, member).out.text]
    ensures r.Fatal? ==> r.fallback == blank
  {
    var result := TryGetMemberSpriteSheet(v, member, sheets, blank);
    if !result.ok then Fatal(result.out) else Ok(result.out)
  }

  function TryGetFont(v: Value, fonts: map<string, Font>, outFont: Font): (r: Attempt<Font>)
    ensures r.ok <==> v.String? && v.text in fonts
    ensures r.ok ==> r.out == fonts[v.text]
    ensures !r.ok ==> r.out == outFont
  {
    var fontName := TryGetString(v, None);
    if !fontName.ok then Attempt(false, outFont)
    else if fontName.out.value !in fonts then Attempt(false, outFont)
    else Attempt(true, fonts[fontName.out.value])
  }

  function TryGetMemberFont(v: Value, member: string, fonts: map<string, Font>, outFont: Font): (r: Attempt<Font>)
    ensures !HasMember(v, member) ==> r == Attempt(false, outFont)
    ensures HasMember(v, member) ==> r == TryGetFont(TryGetMember(v, member).out, fonts, outFont)
  {
    var found := TryGetMember(v, member);
    if !found.ok then Attempt(false, outFont) else TryGetFont(found.out, fonts, outFont)
  }

  function EnsureGetFont(v: Value, fonts: map<string, Font>, blank: Font): (r: Outcome<Font>)
    ensures r.Ok? <==> v.String? && v.text in fonts
    ensures r.Ok? ==> r.value == fonts[v.text]
    ensures r.Fatal? ==> r.fallback == blank
  {
    var result := TryGetFont(v, fonts, blank);
    if !result.ok then Fatal(result.out) else Ok(result.out)
  }

  function EnsureGetMemberFont(v: Value, member: string, fonts: map<string, Font>, blank: Font): (r: Outcome<Font>)
    ensures r.Ok? <==> HasMember(v, member) && TryGetFont(TryGetMember(v, member).out, fonts, blank).ok
    ensures r.Ok? ==> r.value == fonts[TryGetMember(v, member).out.text]
    ensures r.Fatal? ==> r.fallback == blank
  {
    var result := TryGetMemberFont(v, member, fonts, blank);
    if !result.ok then Fatal(result.out) else Ok(result.out)
  }

  function TryGetAnimation(v: Value, animations: map<string, SpriteAnimationDef>, outAnimation: SpriteAnimationDef)
    : (r: Attempt<SpriteAnimationDef>)
    ensures r.ok <==> v.String? && v.text in animations
    ensures r.ok ==> r.out == animations[v.text]
    ensures !r.ok ==> r.out == outAnimation
  {
    var animName := TryGetString(v, None);
    if !animName.ok then Attempt(false, outAnimation)
    else if animName.out.value !in animations then Attempt(false, outAnimation)
    else Attempt(true, animations[animName.out.value])
  }

  function TryGetMemberAnimation(v: Value, member: string, animations: map<string, SpriteAnimationDef>,
                                 outAnimation: SpriteAnimationDef): (r: Attempt<SpriteAnimationDef>)
    ensures !HasMember(v, member) ==> r == Attempt(false, outAnimation)
    ensures HasMember(v, member) ==> r == TryGetAnimation(TryGetMember(v, member).out, animations, outAnimation)
  {
    var found := TryGetMember(v, member);
    if !found.ok then Attempt(false, outAnimation) else TryGetAnimation(found.out, animations, outAnimation)
  }

  function EnsureGetAnimation(v: Value, animations: map<string, SpriteAnimationDef>, blank: SpriteAnimationDef)
    : (r: Outcome<SpriteAnimationDef>)
    ensures r.Ok? <==> v.String? && v.text in animations
    ensures r.Ok? ==> r.value == animations[v.text]
    ensures r.Fatal? ==> r.fallback == blank
  {
    var result := TryGetAnimation(v, animations, blank);
    if !result.ok then Fatal(result.out) else Ok(result.out)
  }

  function EnsureGetMemberAnimation(v: Value, member: string, animations: map<string, SpriteAnimationDef>,
                                    blank: SpriteAnimationDef): (r: Outcome<SpriteAnimationDef>)
    ensures r.Ok? <==> HasMember(v, member) && TryGetAnimation(TryGetMember(v, member).out, animations, blank).ok
    ensures r.Ok? ==> r.value == animations[TryGetMember(v, member).out.text]
    ensures r.Fatal? ==> r.fallback == blank
  {
    var result := TryGetMemberAnimation(v, member, animations, blank);
    if !result.ok then Fatal(result.out) else Ok(result.out)
  }

  // ---------------------------------------------------------------------------
  // Relations between the families

  /** A value of the wrong kind is rejected by every `TryGet*` accessor, and
      the out-parameter keeps what it held. */
  lemma StrictAccessorsLeaveOutUntouched(v: Value, strtol: string -> int, strtoul: string -> int,
                                         outBool: bool, outInt: Int32, outUint: UInt32, outString: CString,
                                         before: AssetPath,
                                         sprites: map<string, Sprite>, outSprite: Sprite,
                                         sheets: map<string, SpriteSheet>, outSheet: SpriteSheet,
                                         fonts: map<string, Font>, outFont: Font,
                                         animations: map<string, SpriteAnimationDef>, outAnimation: SpriteAnimationDef)
    ensures !v.Bool? ==> TryGetBool(v, outBool) == Attempt(false, outBool)
    ensures !v.Num? && !v.String? ==> TryGetInt(v, strtol, outInt) == Attempt(false, outInt)
    ensures !v.Num? && !v.String? ==> TryGetUint(v, strtoul, outUint) == Attempt(false, outUint)
    ensures !v.String? ==> TryGetString(v, outString) == Attempt(false, outString)
    ensures !v.String? && !v.Object? ==> AssetPathAttempt(v, strtoul, before) == Attempt(false, before)
    ensures !v.String? ==> TryGetSprite(v, sprites, outSprite) == Attempt(false, outSprite)
    ensures !v.String? ==> TryGetSpriteSheet(v, sheets, outSheet) == Attempt(false, outSheet)
    ensures !v.String? ==> TryGetFont(v, fonts, outFont) == Attempt(false, outFont)
    ensures !v.String? ==> TryGetAnimation(v, animations, outAnimation) == Attempt(false, outAnimation)
  {
  }

  /** An `Ensure*` accessor succeeds exactly when its `TryGet*` counterpart
      does, whatever the out-parameter held, and then yields the same value. */
  lemma EnsureMatchesTry(v: Value, member: string, strtol: string -> int, strtoul: string -> int,
                         outBool: bool, outInt: Int32, outUint: UInt32, outString: CString)
    ensures EnsureGetBool(v).Ok? == TryGetBool(v, outBool).ok
    ensures EnsureGetBool(v).Ok? ==> EnsureGetBool(v).value == TryGetBool(v, outBool).out
    ensures EnsureGetMemberBool(v, member).Ok? == TryGetMemberBool(v, member, outBool).ok
    ensures EnsureGetMemberBool(v, member).Ok? ==>
              EnsureGetMemberBool(v, member).value == TryGetMemberBool(v, member, outBool).out
    ensures EnsureGetInt(v, strtol).Ok? == TryGetInt(v, strtol, outInt).ok
    ensures EnsureGetInt(v, strtol).Ok? ==> EnsureGetInt(v, strtol).value == TryGetInt(v, strtol, outInt).out
    ensures EnsureGetMemberInt(v, member, strtol).Ok? == TryGetMemberInt(v, member, strtol, outInt).ok
    ensures EnsureGetMemberInt(v, member, strtol).Ok? ==>
              EnsureGetMemberInt(v, member, strtol).value == TryGetMemberInt(v, member, strtol, outInt).out
    ensures EnsureGetUint(v, strtoul).Ok? == TryGetUint(v, strtoul, outUint).ok
    ensures EnsureGetUint(v, strtoul).Ok? ==> EnsureGetUint(v, strtoul).value == TryGetUint(v, strtoul, outUint).out
    ensures EnsureGetMemberUint(v, member, strtoul).Ok? == TryGetMemberUint(v, member, strtoul, outUint).ok
    ensures EnsureGetMemberUint(v, member, strtoul).Ok? ==>
              EnsureGetMemberUint(v, member, strtoul).value == TryGetMemberUint(v, member, strtoul, outUint).out
    ensures EnsureGetString(v).Ok? == TryGetString(v, outString).ok
    ensures EnsureGetString(v).Ok? ==> EnsureGetString(v).value == TryGetString(v, outString).out
    ensures EnsureGetMemberString(v, member).Ok? == TryGetMemberString(v, member, outString).ok
    ensures EnsureGetMemberString(v, member).Ok? ==>
              EnsureGetMemberString(v, member).value == TryGetMemberString(v, member, outString).out
  {
  }

  /** The same correspondence for the accessors that look a name up in a registry. */
  lemma EnsureMatchesTryRegistered(v: Value, member: string,
                                   sprites: map<string, Sprite>, blankSprite: Sprite, outSprite: Sprite,
                                   sheets: map<string, SpriteSheet>, blankSheet: SpriteSheet, outSheet: SpriteSheet,
                                   fonts: map<string, Font>, blankFont: Font, outFont: Font,
                                   animations: map<string, SpriteAnimationDef>, blankAnimation: SpriteAnimationDef,
                                   outAnimation: SpriteAnimationDef)
    ensures EnsureGetSprite(v, sprites, blankSprite).Ok? == TryGetSprite(v, sprites, outSprite).ok
    ensures EnsureGetSprite(v, sprites, blankSprite).Ok? ==>
              EnsureGetSprite(v, sprites, blankSprite).value == TryGetSprite(v, sprites, outSprite).out
    ensures EnsureGetMemberSprite(v, member, sprites, blankSprite).Ok? ==
              TryGetMemberSprite(v, member, sprites, outSprite).ok
    ensures EnsureGetMemberSprite(v, member, sprites, blankSprite).Ok? ==>
              EnsureGetMemberSprite(v, member, sprites, blankSprite).value ==
              TryGetMemberSprite(v, member, sprites, outSprite).out
    ensures EnsureGetSpriteSheet(v, sheets, blankSheet).Ok? == TryGetSpriteSheet(v, sheets, outSheet).ok
    ensures EnsureGetSpriteSheet(v, sheets, blankSheet).Ok? ==>
              EnsureGetSpriteSheet(v, sheets, blankSheet).value == TryGetSpriteSheet(v, sheets, outSheet).out
    ensures EnsureGetMemberSpriteSheet(v, member, sheets, blankSheet).Ok? ==
              TryGetMemberSpriteSheet(v, member, sheets, outSheet).ok
    ensures EnsureGetMemberSpriteSheet(v, member, sheets, blankSheet).Ok? ==>
              EnsureGetMemberSpriteSheet(v, member, sheets, blankSheet).value ==
              TryGetMemberSpriteSheet(v, member, sheets, outSheet).out
    ensures EnsureGetFont(v, fonts, blankFont).Ok? == TryGetFont(v, fonts, outFont).ok
    ensures EnsureGetFont(v, fonts, blankFont).Ok? ==>
              EnsureGetFont(v, fonts, blankFont).value == TryGetFont(v, fonts, outFont).out
    ensures EnsureGetMemberFont(v, member, fonts, blankFont).Ok? == TryGetMemberFont(v, member, fonts, outFont).ok
    ensures EnsureGetMemberFont(v, member, fonts, blankFont).Ok? ==>
              EnsureGetMemberFont(v, member, fonts, blankFont).value == TryGetMemberFont(v, member, fonts, outFont).out
    ensures EnsureGetAnimation(v, animations, blankAnimation).Ok? == TryGetAnimation(v, animations, outAnimation).ok
    ensures EnsureGetAnimation(v, animations, blankAnimation).Ok? ==>
              EnsureGetAnimation(v, animations, blankAnimation).value == TryGetAnimation(v, animations, outAnimation).out
    ensures EnsureGetMemberAnimation(v, member, animations, blankAnimation).Ok? ==
              TryGetMemberAnimation(v, member, animations, outAnimation).ok
    ensures EnsureGetMemberAnimation(v, member, animations, blankAnimation).Ok? ==>
              EnsureGetMemberAnimation(v, member, animations, blankAnimation).value ==
              TryGetMemberAnimation(v, member, animations, outAnimation).out
  {
  }

  /** The member forms go through `TryGetMember`: a member that is absent is
      the `Null` value with the flag down, and no accessor accepts `Null`. */
  lemma NullMemberIsRejected(strtol: string -> int, strtoul: string -> int,
                             outBool: bool, outInt: Int32, outUint: UInt32, outString: CString, before: AssetPath,
                             sprites: map<string, Sprite>, outSprite: Sprite,
                             sheets: map<string, SpriteSheet>, outSheet: SpriteSheet,
                             fonts: map<string, Font>, outFont: Font,
                             animations: map<string, SpriteAnimationDef>, outAnimation: SpriteAnimationDef)
    ensures !TryGetBool(Null, outBool).ok && !TryGetString(Null, outString).ok
    ensures !TryGetInt(Null, strtol, outInt).ok && !TryGetUint(Null, strtoul, outUint).ok
    ensures !AssetPathAttempt(Null, strtoul, before).ok
    ensures !TryGetSprite(Null, sprites, outSprite).ok && !TryGetSpriteSheet(Null, sheets, outSheet).ok
    ensures !TryGetFont(Null, fonts, outFont).ok && !TryGetAnimation(Null, animations, outAnimation).ok
  {
  }
}
