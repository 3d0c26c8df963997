/** The engine's layout tables for this game: byte offsets of the fields the
    downstream traversal reads, one table for 64-bit and one for 32-bit builds.
    Every field is a `uint16`. */
module Offsets {
  import opened Platform

  type U16 = x: int | 0 <= x < 0x1_0000

  datatype FNameOffsets = FNameOffsets(Number: U16)
  datatype FNameEntryOffsets = FNameEntryOffsets(Name: U16)
  /** Only used from UE 4.23 on; all zero here. */
  datatype FNameEntry23Offsets = FNameEntry23Offsets(Info: U16, WideBit: U16, LenBit: U16, HeaderSize: U16)
  datatype FUObjectArrayOffsets = FUObjectArrayOffsets(ObjObjects: U16)
  datatype TUObjectArrayOffsets = TUObjectArrayOffsets(NumElements: U16)
  datatype FUObjectItemOffsets = FUObjectItemOffsets(Size: U16)
  datatype UObjectOffsets = UObjectOffsets(ObjectFlags: U16, InternalIndex: U16, ClassPrivate: U16,
                                           NamePrivate: U16, OuterPrivate: U16)
  datatype UFieldOffsets = UFieldOffsets(Next: U16)
  datatype UStructOffsets = UStructOffsets(SuperStruct: U16, Children: U16, ChildProperties: U16, PropertiesSize: U16)
  datatype UEnumOffsets = UEnumOffsets(Names: U16)
  datatype UFunctionOffsets = UFunctionOffsets(EFunctionFlags: U16, NumParams: U16, ParamSize: U16, Func: U16)
  /** Only used from UE 4.25 on; all zero here. */
  datatype FFieldOffsets = FFieldOffsets(ClassPrivate: U16, Next: U16, NamePrivate: U16, FlagsPrivate: U16)
  datatype PropertyOffsets = PropertyOffsets(ArrayDim: U16, ElementSize: U16, PropertyFlags: U16,
                                             Offset_Internal: U16, Size: U16)

  datatype UEOffsets = UEOffsets(
    Stride: U16, FNamePoolBlocks: U16, FNameMaxSize: U16,
    FName: FNameOffsets, FNameEntry: FNameEntryOffsets, FNameEntry23: FNameEntry23Offsets,
    FUObjectArray: FUObjectArrayOffsets, TUObjectArray: TUObjectArrayOffsets, FUObjectItem: FUObjectItemOffsets,
    UObject: UObjectOffsets, UField: UFieldOffsets, UStruct: UStructOffsets, UEnum: UEnumOffsets,
    UFunction: UFunctionOffsets, FField: FFieldOffsets, FProperty: PropertyOffsets, UProperty: PropertyOffsets)

  /** Narrowing to `uint16`, as the initialisers of the C++ tables do. */
  function U16Of(x: int): U16
  {
    x % 0x1_0000
  }

  /** A UFunction block: the parameter count sits 4 bytes after the flags, the
      parameter size 2 bytes after that, and the native function pointer
      `funcDelta` bytes after the flags. */
  function UFunctionAt(flags: U16, funcDelta: int): UFunctionOffsets
  {
    var numParams := U16Of(flags + 0x4);
    UFunctionOffsets(flags, numParams, U16Of(numParams + 0x2), U16Of(flags + funcDelta))
  }

  const Profile64: UEOffsets := UEOffsets(
    0, 0, 0xff,
    FNameOffsets(4),
    FNameEntryOffsets(0xC),
    FNameEntry23Offsets(0, 0, 0, 0),
    FUObjectArrayOffsets(0x10),
    TUObjectArrayOffsets(0xC),
    FUObjectItemOffsets(0x18),
    UObjectOffsets(0x8, 0xC, 0x10, 0x18, 0x20),
    UFieldOffsets(0x28),
    UStructOffsets(0x30, 0x38, 0, 0x40),
    UEnumOffsets(0x40),
    UFunctionAt(0x88, 0x28),
    FFieldOffsets(0, 0, 0, 0),
    PropertyOffsets(0, 0, 0, 0, 0),
    PropertyOffsets(0x30, 0x34, 0x38, 0x44, 0x70))

  const Profile32: UEOffsets := UEOffsets(
    0, 0, 0xff,
    FNameOffsets(4),
    FNameEntryOffsets(0x8),
    FNameEntry23Offsets(0, 0, 0, 0),
    FUObjectArrayOffsets(0x10),
    TUObjectArrayOffsets(0x8),
    FUObjectItemOffsets(0x10),
    UObjectOffsets(0x4, 0x8, 0xC, 0x10, 0x18),
    UFieldOffsets(0x1C),
    UStructOffsets(0x20, 0x24, 0, 0x28),
    UEnumOffsets(0x2C),
    UFunctionAt(0x58, 0x1C),
    FFieldOffsets(0, 0, 0, 0),
    PropertyOffsets(0, 0, 0, 0, 0),
    PropertyOffsets(0x20, 0x24, 0x28, 0x34, 0x50))

  /** The table for the dumper's own pointer width. */
  function GetOffsets(w: Width): (r: UEOffsets)
    ensures r == Profile64 <==> w.Bits64?
    ensures r == Profile32 <==> w.Bits32?
    ensures r.UFunction.NumParams == r.UFunction.EFunctionFlags + 0x4
    ensures r.UFunction.ParamSize == r.UFunction.NumParams + 0x2
    ensures r.UFunction.Func == r.UFunction.EFunctionFlags + (if w.Bits64? then 0x28 else 0x1C)
  {
    if w.Bits64? then Profile64 else Profile32
  }

  /** The derived UFunction offsets of the two tables. */
  lemma DerivedUFunctionOffsets()
    ensures Profile64.UFunction == UFunctionOffsets(0x88, 0x8C, 0x8E, 0xB0)
    ensures Profile32.UFunction == UFunctionOffsets(0x58, 0x5C, 0x5E, 0x74)
  {
  }

  /** The sizes the tables are built from agree with the pointer width: UObject
      ends with its Outer pointer where UField's Next begins, UField ends one
      pointer later where both UStruct's SuperStruct and UProperty's ArrayDim
      begin, and UStruct's Children pointer follows SuperStruct. */
  lemma BaseClassSizes(w: Width)
    ensures GetOffsets(w).UField.Next == GetOffsets(w).UObject.OuterPrivate + PtrBytes(w)
    ensures GetOffsets(w).UStruct.SuperStruct == GetOffsets(w).UField.Next + PtrBytes(w)
    ensures GetOffsets(w).UProperty.ArrayDim == GetOffsets(w).UStruct.SuperStruct
    ensures GetOffsets(w).UStruct.Children == GetOffsets(w).UStruct.SuperStruct + PtrBytes(w)
  {
  }
}
