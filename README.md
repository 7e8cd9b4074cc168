# Profile accessor layer of the impacto engine, modelled in Dafny

The engine reads every game-specific setting (sprites, fonts, animations,
asset paths, numeric tunables) from a JSON profile. The JSON is parsed by
rapidjson and then read through a family of small validators in
`src/profile/profile_internal.cpp`:

- `AssertIs` / `AssertIsOneOf` check a value's type tag.
- `TryGetMember` / `EnsureGetMember*` look up an object member.
- `TryGet<T>` converts a value to a target kind. It reports success through a `bool` and writes an out-parameter. The kinds are Bool, Int, Uint, String, AssetPath, and the registry-backed Sprite, SpriteSheet, Font and Animation.
- `TryGetMember<T>` composes the member lookup with `TryGet<T>`.
- `EnsureGet*` turns a failed `Try*` into a fatal error: a log line, then `Window::Shutdown()`, then a default return value.

The model has two modules.

- `Json` (`json.dfy`) is the parsed tree as these functions observe it.
  - The type tags are in rapidjson's order (Null, False, True, Object, Array, String, Number), the same order as `kTypeNames`.
  - An object is a sequence of named members. `FindMember` returns the first member with the requested name.
  - A number is an integer literal or a floating one. `IsInt` means an integer in the signed 32-bit range; `IsUint` means one in the unsigned 32-bit range.
- `ProfileInternal` (`profile_internal.dfy`) holds the accessors.
  - A `TryGet*` function takes the out-parameter's value before the call. It returns an `Attempt(ok, out)`: the flag returned, and what the out-parameter holds afterwards. The contracts therefore state exactly when the out-parameter is left untouched.
  - An `Ensure*` function returns an `Outcome`. `Ok(value)` is a normal return. `Fatal(fallback)` means the error was logged and the window shut down; `fallback` is what the C++ function returns afterwards (`GlobalNull`, `0`, a null pointer, or its possibly partially written local).
  - `EnsureGetMemberOfType` inspects that fallback: for a missing member it goes on to test the type of the `Null` it got back.
  - `TryGetAssetPath` writes the fields of its out-parameter one at a time. It is a method over the class `MutableAssetPath`, proved against the function `AssetPathAttempt`.
  - `AssertIsOneOf` and `EnsureGetMemberOfTypes` are methods. Their search loop is `FindType`; their `strcat` loop, which formats the expected-type list, is `BuildTypeList`.
  - The registries `Sprites`, `SpriteSheets`, `Fonts` and `Animations` are maps passed as parameters.
  - `SDL_strtol` and `SDL_strtoul` are function parameters. Their `long` / `unsigned long` result is narrowed to 32 bits modulo 2^32, as the assignment to `int` / `uint32_t` does.

Behaviour the proofs make explicit:

- `TryGetInt` and `TryGetUint` accept every string. The source tests `endp != 0`, and the end pointer `strtol` stores is never null, so a text without digits is read as whatever the parser returns for it.
- Among the modelled accessors, a failed `Try*` leaves its out-parameter untouched. `TryGetAssetPath` is the exception: on an object it writes `Id` before it looks at `Mount`. When `Mount` then fails, the caller is left with the new `Id`, and `EnsureGetAssetPath` returns that partially written path. The object form never writes `FileName`. The compound float accessors, which are not modelled, share this pattern: `TryGetVec2`, `TryGetVec3` and `TryGetRectF` write each component as they read it, so a later component that fails leaves the earlier ones written.
- The expected-type list is formatted into an 80-byte buffer. A list that names each type at most once is at most 48 characters long, the length of the list of all seven types, so it always fits. A list of fourteen or more entries, which must repeat a type, would overflow the buffer.

## Model

| member | source | states |
|---|---|---|
| `Json.FindMember` | src/profile/profile_internal.cpp:70-71 | a member is found exactly when the object has one of that name, and it is the first such member |
| `Json.MemberIndex` | src/profile/profile_internal.cpp:70 | the index returned names the requested member and no earlier member has that name; none is returned only when no member has it |
| `Json.FirstListedMemberWins` | src/profile/profile_internal.cpp:70 | with duplicate keys, lookup yields the member listed first |
| `Json.LookupSkipsOtherNames` | src/profile/profile_internal.cpp:70 | members of other names before the sought one do not change the lookup |
| `Json.TypeOf` | src/profile/profile_internal.cpp:34 | the type tag names the value's kind, with a boolean's truth value carried in the tag (`True` or `False`) |
| `Json.IsInt` | src/profile/profile_internal.cpp:170 | a value flagged as a signed 32-bit integer is a number |
| `Json.GetInt` | src/profile/profile_internal.cpp:171 | a signed value that is not negative is also flagged unsigned, and then both getters read the same number |
| `Json.IsUint` | src/profile/profile_internal.cpp:211 | a value flagged as an unsigned 32-bit integer is a number |
| `Json.GetUint` | src/profile/profile_internal.cpp:212 | an unsigned value below 2^31 is also flagged as a signed integer |
| `ProfileInternal.TypeName` | src/profile/profile_internal.cpp:17-18 | every type name in `kTypeNames` is 4 to 6 characters long |
| `ProfileInternal.WrapInt32` | src/profile/profile_internal.cpp:176 | storing a `long` into an `int` keeps its value modulo 2^32, and leaves it unchanged when it fits 32 signed bits |
| `ProfileInternal.WrapUInt32` | src/profile/profile_internal.cpp:217 | storing an `unsigned long` into a `uint32_t` keeps its value modulo 2^32, and leaves it unchanged when it fits 32 bits |
| `ProfileInternal.AssertIs` | src/profile/profile_internal.cpp:33-42 | returns the same value exactly when its type tag equals the requested type; otherwise fatal, returning `Null` |
| `ProfileInternal.AssertIsPassesForOneType` | src/profile/profile_internal.cpp:33-42 | each value passes `AssertIs` for its own type and for no other |
| `ProfileInternal.FindType` | src/profile/profile_internal.cpp:46-49 | the loop finds the actual type exactly when it occurs somewhere in the list |
| `ProfileInternal.BuildTypeList` | src/profile/profile_internal.cpp:51-58 | the `strcat` loop produces the type names joined by ", " |
| `ProfileInternal.TypeListLengthBounds` | src/profile/profile_internal.cpp:51-58 | a list of n types formats to between 6n-2 and 8n characters |
| `ProfileInternal.RepeatFreeListFitsPool` | src/profile/profile_internal.cpp:44-45 | a type list without repeats is no longer than the set of types it draws from |
| `ProfileInternal.TypeListLength` | src/profile/profile_internal.cpp:51-58 | a formatted list of n types is its names plus n-1 two-character separators |
| `ProfileInternal.RepeatFreeCharge` | src/profile/profile_internal.cpp:51-58 | without repeats, the names and separators add up per distinct type listed |
| `ProfileInternal.TypeListFitsBuffer` | src/profile/profile_internal.cpp:51 | a type list without repeats is at most 48 characters, so it fits the 80-byte buffer together with its NUL |
| `ProfileInternal.AllTypesListIsLongest` | src/profile/profile_internal.cpp:51-58 | the list of all seven types is exactly 48 characters, so the bound is reached |
| `ProfileInternal.LongTypeListOverflows` | src/profile/profile_internal.cpp:51-58 | a list of 14 or more types does not fit the 80-byte buffer |
| `ProfileInternal.AssertIsOneOf` | src/profile/profile_internal.cpp:44-66 | succeeds with the same value exactly when its type occurs in the list (so order and repeats do not matter); otherwise fatal with `Null`, and only then is the type list formatted; a one-type list behaves as `AssertIs` |
| `ProfileInternal.TryGetMember` | src/profile/profile_internal.cpp:68-78 | flag set and the first member of that name returned when the key is present; flag cleared and `Null` returned when absent |
| `ProfileInternal.NullMemberIsRejected` | src/profile/profile_internal.cpp:68-78 | the `Null` returned for a missing member is accepted by no conversion: Bool, Int, Uint, String, AssetPath, Sprite, SpriteSheet, Font and Animation all fail on it, whatever the out-parameter held |
| `ProfileInternal.EnsureGetMember` | src/profile/profile_internal.cpp:80-90 | returns the member when present, the value `TryGetMember` yields; fatal with `Null` when absent |
| `ProfileInternal.EnsureGetMemberOfType` | src/profile/profile_internal.cpp:91-104 | succeeds exactly when the member exists and has the requested type, returning the value `TryGetMember` yields; fatal with `Null` otherwise |
| `ProfileInternal.MemberOfTypeIsAssertIsOnMember` | src/profile/profile_internal.cpp:91-104 | `EnsureGetMemberOfType` succeeds exactly when the member exists and `AssertIs` passes on it |
| `ProfileInternal.EnsureGetMemberOfTypes` | src/profile/profile_internal.cpp:105-130 | succeeds exactly when the member exists and its type occurs in the list; the list is formatted only when the inspected value (the member, or `Null` for a missing one) has no listed type; a one-type list behaves as `EnsureGetMemberOfType` |
| `ProfileInternal.TryGetBool` | src/profile/profile_internal.cpp:132-140 | succeeds exactly on the two boolean type tags, yielding true exactly for the True tag; any other value leaves the out-parameter untouched |
| `ProfileInternal.TryGetMemberBool` | src/profile/profile_internal.cpp:142-146 | false and out-parameter unchanged when the member is absent, otherwise `TryGetBool` of the member |
| `ProfileInternal.EnsureGetBool` | src/profile/profile_internal.cpp:148-156 | the boolean of a boolean value; fatal returning false otherwise |
| `ProfileInternal.EnsureGetMemberBool` | src/profile/profile_internal.cpp:158-167 | the boolean of a present boolean member; fatal returning false otherwise |
| `ProfileInternal.TryGetInt` | src/profile/profile_internal.cpp:169-181 | succeeds exactly on int-representable numbers, with their value, and on every string, with the narrowed parse result; other values leave the out-parameter untouched |
| `ProfileInternal.TryGetMemberInt` | src/profile/profile_internal.cpp:183-187 | false and out-parameter unchanged when the member is absent, otherwise `TryGetInt` of the member |
| `ProfileInternal.EnsureGetInt` | src/profile/profile_internal.cpp:189-197 | the int of an int-representable number or string; fatal returning 0 otherwise |
| `ProfileInternal.EnsureGetMemberInt` | src/profile/profile_internal.cpp:199-208 | the `TryGetInt` result of a present member on success; fatal returning 0 otherwise |
| `ProfileInternal.TryGetUint` | src/profile/profile_internal.cpp:210-222 | succeeds exactly on uint-representable numbers, with their value, and on every string, with the narrowed parse result; other values leave the out-parameter untouched |
| `ProfileInternal.TryGetMemberUint` | src/profile/profile_internal.cpp:224-228 | false and out-parameter unchanged when the member is absent, otherwise `TryGetUint` of the member |
| `ProfileInternal.EnsureGetUint` | src/profile/profile_internal.cpp:230-239 | the uint of a uint-representable number or string; fatal returning 0 otherwise |
| `ProfileInternal.EnsureGetMemberUint` | src/profile/profile_internal.cpp:241-251 | the `TryGetUint` result of a present member on success; fatal returning 0 otherwise |
| `ProfileInternal.IntAndUintAgreeOnSmallNaturals` | src/profile/profile_internal.cpp:169-222 | a non-negative int-representable number reads the same through `TryGetInt` and `TryGetUint` |
| `ProfileInternal.IntAndUintRangesDiffer` | src/profile/profile_internal.cpp:170-172 | -1 is an int but not a uint, 2^31 a uint but not an int, and a non-integral number neither |
| `ProfileInternal.EveryStringConverts` | src/profile/profile_internal.cpp:174-178 | every string is accepted as int and as uint, whatever the out-parameter held |
| `ProfileInternal.ParsedValuesAreNarrowed` | src/profile/profile_internal.cpp:176 | parse results beyond 32 bits wrap: 2^32 reads as 0, 2^31 as -2^31, and `ULONG_MAX` as 0xFFFFFFFF |
| `ProfileInternal.TryGetString` | src/profile/profile_internal.cpp:295-299 | succeeds exactly on a string, yielding its text; any other value leaves the out-parameter untouched |
| `ProfileInternal.TryGetMemberString` | src/profile/profile_internal.cpp:301-306 | false and out-parameter unchanged when the member is absent, otherwise `TryGetString` of the member |
| `ProfileInternal.EnsureGetString` | src/profile/profile_internal.cpp:308-316 | the text of a string value; fatal returning the null pointer otherwise |
| `ProfileInternal.EnsureGetMemberString` | src/profile/profile_internal.cpp:318-327 | the text of a present string member; fatal returning the null pointer otherwise |
| `ProfileInternal.StrictAccessorsLeaveOutUntouched` | src/profile/profile_internal.cpp:132-602 | every modelled `TryGet*` fails on a value of a kind it never converts (Bool: not a boolean; Int and Uint: neither a number nor a string; String and the registry kinds: not a string; AssetPath: neither a string nor an object) and leaves the out-parameter as it was |
| `ProfileInternal.EnsureMatchesTry` | src/profile/profile_internal.cpp:148-327 | for Bool, Int, Uint and String, each `EnsureGet*` and `EnsureGetMember*` succeeds exactly when its `TryGet*` / `TryGetMember*` does, for any prior out-parameter, and then yields the same value |
| `ProfileInternal.EnsureMatchesTryRegistered` | src/profile/profile_internal.cpp:476-631 | for Sprite, SpriteSheet, Font and Animation, each `EnsureGet*` and `EnsureGetMember*` succeeds exactly when its `TryGet*` / `TryGetMember*` does, for any prior out-parameter, and then yields the same entry |
| `ProfileInternal.AssetPathAttempt` | src/profile/profile_internal.cpp:431-446 | a string gives mount "", id 0 and the string as file name; an object succeeds exactly when `Id` is uint-convertible and `Mount` is a string, never writes the file name, and writes the id even when `Mount` fails; any other value fails with nothing written |
| `ProfileInternal.IdWrittenBeforeMountFails` | src/profile/profile_internal.cpp:440-443 | an object with an `Id` of 7 and no `Mount` fails with only the id overwritten |
| `ProfileInternal.StringAssetPathOverwritesAll` | src/profile/profile_internal.cpp:432-436 | a string asset path does not depend on the prior out-parameter |
| `ProfileInternal.TryGetAssetPath` | src/profile/profile_internal.cpp:431-446 | the flag returned and the fields written into the out-parameter are those of `AssetPathAttempt` |
| `ProfileInternal.TryGetMemberAssetPath` | src/profile/profile_internal.cpp:448-453 | false with the out-parameter unchanged when the member is absent, otherwise `TryGetAssetPath` of the member |
| `ProfileInternal.EnsureGetAssetPath` | src/profile/profile_internal.cpp:455-462 | succeeds exactly when `TryGetAssetPath` does; on failure it is fatal and returns the partially written path |
| `ProfileInternal.EnsureGetMemberAssetPath` | src/profile/profile_internal.cpp:464-474 | succeeds exactly when the member is present and converts; returns the partially written path (or the untouched local) after a fatal error |
| `ProfileInternal.TryGetSprite` | src/profile/profile_internal.cpp:476-485 | succeeds exactly when the value is a string naming a registered sprite, yielding that entry; otherwise the out-parameter is untouched |
| `ProfileInternal.TryGetMemberSprite` | src/profile/profile_internal.cpp:487-494 | false and out-parameter unchanged when the member is absent, otherwise `TryGetSprite` of the member |
| `ProfileInternal.EnsureGetSprite` | src/profile/profile_internal.cpp:496-503 | the registered sprite named by the string; fatal returning the default sprite otherwise |
| `ProfileInternal.EnsureGetMemberSprite` | src/profile/profile_internal.cpp:505-513 | the registered sprite named by a present member; fatal returning the default sprite otherwise |
| `ProfileInternal.TryGetSpriteSheet` | src/profile/profile_internal.cpp:515-524 | succeeds exactly when the value is a string naming a registered sprite sheet, yielding that entry; otherwise the out-parameter is untouched |
| `ProfileInternal.TryGetMemberSpriteSheet` | src/profile/profile_internal.cpp:526-533 | false and out-parameter unchanged when the member is absent, otherwise `TryGetSpriteSheet` of the member |
| `ProfileInternal.EnsureGetSpriteSheet` | src/profile/profile_internal.cpp:535-542 | the registered sheet named by the string; fatal returning the default sheet otherwise |
| `ProfileInternal.EnsureGetMemberSpriteSheet` | src/profile/profile_internal.cpp:544-553 | the registered sheet named by a present member; fatal returning the default sheet otherwise |
| `ProfileInternal.TryGetFont` | src/profile/profile_internal.cpp:555-564 | succeeds exactly when the value is a string naming a registered font, yielding that entry; otherwise the out-parameter is untouched |
| `ProfileInternal.TryGetMemberFont` | src/profile/profile_internal.cpp:566-572 | false and out-parameter unchanged when the member is absent, otherwise `TryGetFont` of the member |
| `ProfileInternal.EnsureGetFont` | src/profile/profile_internal.cpp:574-581 | the registered font named by the string; fatal returning the default font otherwise |
| `ProfileInternal.EnsureGetMemberFont` | src/profile/profile_internal.cpp:583-591 | the registered font named by a present member; fatal returning the default font otherwise |
| `ProfileInternal.TryGetAnimation` | src/profile/profile_internal.cpp:593-602 | succeeds exactly when the value is a string naming a registered animation, yielding that entry; otherwise the out-parameter is untouched |
| `ProfileInternal.TryGetMemberAnimation` | src/profile/profile_internal.cpp:604-611 | false and out-parameter unchanged when the member is absent, otherwise `TryGetAnimation` of the member |
| `ProfileInternal.EnsureGetAnimation` | src/profile/profile_internal.cpp:613-620 | the registered animation named by the string; fatal returning the default animation otherwise |
| `ProfileInternal.EnsureGetMemberAnimation` | src/profile/profile_internal.cpp:622-631 | the registered animation named by a present member; fatal returning the default animation otherwise |

## Left out

- `LoadJsonString` (src/profile/profile_internal.cpp:20-31) is JSON parsing inside rapidjson, followed by a shutdown on a parse error. The model starts from the parsed tree.
- The float accessors are not modelled: `TryGetFloat`, `TryGetMemberFloat`, `EnsureGetFloat`, `EnsureGetMemberFloat`, and the `Vec2`, `Vec3` and `RectF` families built on them. They are floating-point conversion through `GetFloat` and `SDL_strtod`.
- The digit-parsing rules of `SDL_strtol` and `SDL_strtoul` are foreign calls. They appear only as the function parameters `strtol` / `strtoul`, with any integer result. `WrapInt32` / `WrapUInt32` are the correct narrowing for either width of `long`. What the parser returns for out-of-range text (saturation at `LONG_MAX` or `ULONG_MAX` on a 32-bit `long`, the full value on a 64-bit one) belongs to the abstract `strtol` / `strtoul`.
- The log messages (`ImpLog` and its format strings) are not modelled. The one exception is the expected-type list, which the model formats.
- `Window::Shutdown()` itself is not modelled. Its effect on the process is outside the model: a `Fatal` outcome records only that it was called. Two fatal reports can happen in one call: `EnsureGetMemberOfType` on a missing member when the requested type is not `Null`, and `EnsureGetMemberOfTypes` on a missing member when `Null` is not in the list. The outcome is then one `Fatal`.
- `Json.FindMember`: rapidjson asserts that `FindMember` is called on an Object. The model does not capture that assertion: it treats any other value as having no members.
- Strings are whole character sequences. A JSON string with an embedded NUL, which the C code would cut short when it passes it on as `char const*`, is not modelled.
- The accessors return `Value const&`. Whether the reference is the member inside the tree or the shared `GlobalNull` is not modelled: the model returns the value.
- `TryGetAssetPath` and its callers: the out-parameter is a separate object. Aliasing between it and the JSON tree cannot occur in the source and is not modelled.
- The uninitialised local `result` of `EnsureGetSprite`, `EnsureGetAssetPath` and similar functions is the parameter `blank` / `init`. Its default construction (declared in headers not part of this model) is not modelled.
