/**
 * The D-Pad configuration of the ROM patch (MMR.Randomizer/Asm/DPad.cs): the items the four
 * D-Pad slots hold, whether the D-Pad is used and where it is drawn, and the 22-byte structure
 * the configuration is written into the ROM as.
 */
module DPad {
  import Wrappers

  /** An unsigned byte, and the `uint` of the structure's version field. */
  type byte = x: int | 0 <= x < 0x100
  type uint32 = x: int | 0 <= x < 0x1_0000_0000

  /**
   * `DPadValue` is an enum backed by a byte, so every byte is a value of the type; its named
   * members are the constants below.
   */
  type DPadValue = byte

  const Ocarina: DPadValue := 0x00
  const DekuMask: DPadValue := 0x32
  const GoronMask: DPadValue := 0x33
  const ZoraMask: DPadValue := 0x34
  const BunnyHood: DPadValue := 0x39
  /** The empty slot. */
  const None: DPadValue := 0xFF

  /** `v` is one of the six named members of `DPadValue`. */
  predicate IsNamed(v: DPadValue) {
    v == None || v == Ocarina || v == DekuMask || v == GoronMask || v == ZoraMask || v == BunnyHood
  }

  /** `DPadCategory`; the members `None` and `Ocarina` carry a `Category` prefix here. */
  datatype DPadCategory = CategoryNone | CategoryOcarina | TransformationMasks | NormalMasks

  datatype DPadState = Disabled | Enabled | Defaults

  /** `DPadDisplay`; the member `None` is `DisplayNone` here. */
  datatype DPadDisplay = DisplayNone | Left | Right

  /** The byte a state is written as: its ordinal. */
  function StateByte(s: DPadState): (b: byte)
    ensures b < 3
  {
    match s
    case Disabled => 0
    case Enabled => 1
    case Defaults => 2
  }

  /** The byte a display position is written as: its ordinal. */
  function DisplayByte(d: DPadDisplay): (b: byte)
    ensures b < 3
  {
    match d
    case DisplayNone => 0
    case Left => 1
    case Right => 2
  }

  /** The state whose ordinal is `b`, if there is one. */
  function StateOf(b: byte): Wrappers.Option<DPadState> {
    if b == 0 then Wrappers.Some(Disabled)
    else if b == 1 then Wrappers.Some(Enabled)
    else if b == 2 then Wrappers.Some(Defaults)
    else Wrappers.None
  }

  /** The display position whose ordinal is `b`, if there is one. */
  function DisplayOf(b: byte): Wrappers.Option<DPadDisplay> {
    if b == 0 then Wrappers.Some(DisplayNone)
    else if b == 1 then Wrappers.Some(Left)
    else if b == 2 then Wrappers.Some(Right)
    else Wrappers.None
  }

  /** Distinct states are written as distinct bytes, and each byte is read back as its state. */
  lemma StateBytesDecode(s: DPadState, b: byte)
    ensures StateOf(b) == Wrappers.Some(s) <==> b == StateByte(s)
  {
  }

  lemma DisplayBytesDecode(d: DPadDisplay, b: byte)
    ensures DisplayOf(b) == Wrappers.Some(d) <==> b == DisplayByte(d)
  {
  }

  // ---------------------------------------------------------------------------------------------
  // Items
  // ---------------------------------------------------------------------------------------------

  /** `DPadItem`: a value, the category it belongs to and the name shown for it. */
  datatype DPadItem = DPadItem(value: DPadValue, category: DPadCategory, name: string)

  /** `DPadItem.All()`, in the order it lists the items. */
  function All(): (items: seq<DPadItem>)
    ensures |items| == 6
  {
    [ DPadItem(None, CategoryNone, "None"),
      DPadItem(Ocarina, CategoryOcarina, "Ocarina"),
      DPadItem(DekuMask, TransformationMasks, "Deku Mask"),
      DPadItem(GoronMask, TransformationMasks, "Goron Mask"),
      DPadItem(ZoraMask, TransformationMasks, "Zora Mask"),
      DPadItem(BunnyHood, NormalMasks, "Bunny Hood") ]
  }

  /** `DPadItem.Equals`: two items are equal when their values are, whatever their names. */
  predicate ItemEquals(a: DPadItem, b: DPadItem) {
    a.value == b.value
  }

  /** The values listed by `All()` are pairwise distinct ... */
  lemma AllValuesDistinct()
    ensures forall i, j :: 0 <= i < |All()| && 0 <= j < |All()| && All()[i].value == All()[j].value ==> i == j
  {
  }

  /** ... and they are exactly the named members of `DPadValue`. */
  lemma AllListsNamedValues(v: DPadValue)
    ensures IsNamed(v) <==> exists i :: 0 <= i < |All()| && All()[i].value == v
  {
    if IsNamed(v) {
      var i := if v == None then 0 else if v == Ocarina then 1 else if v == DekuMask then 2
        else if v == GoronMask then 3 else if v == ZoraMask then 4 else 5;
      assert All()[i].value == v;
    }
  }

  /** So on the listed items, `Equals` is identity. */
  lemma ItemEqualsOnAll(i: nat, j: nat)
    requires i < |All()| && j < |All()|
    ensures ItemEquals(All()[i], All()[j]) <==> All()[i] == All()[j]
  {
    AllValuesDistinct();
  }

  /**
   * `DPadItem.From`: scans `All()` and returns the first item whose value is `value`, or null.
   * It finds an item exactly for the named values, and the item it finds is the one listed for it.
   */
  method From(value: DPadValue) returns (r: Wrappers.Option<DPadItem>)
    ensures r.Some? <==> IsNamed(value)
    ensures forall k :: 0 <= k < |All()| && All()[k].value == value ==> r == Wrappers.Some(All()[k])
  {
    var items := All();
    AllValuesDistinct();
    var i := 0;
    while i < |items|
      invariant 0 <= i <= |items|
      invariant forall k :: 0 <= k < i ==> items[k].value != value
    {
      if items[i].value == value {
        return Wrappers.Some(items[i]);
      }
      i := i + 1;
    }
    AllListsNamedValues(value);
    return Wrappers.None;
  }

  // ---------------------------------------------------------------------------------------------
  // The pad
  // ---------------------------------------------------------------------------------------------

  /** `DPad`: the values on the Up, Right, Down and Left slots, in that order. */
  datatype DPad = DPad(values: seq<DPadValue>)

  /** `new DPad(up, right, down, left)`. */
  function Make(up: DPadValue, right: DPadValue, down: DPadValue, left: DPadValue): DPad {
    DPad([up, right, down, left])
  }

  /**
   * `new DPad(values)`: takes the first four values; fewer than four is an index error, the
   * `None` here.
   */
  function FromValues(values: seq<DPadValue>): (r: Wrappers.Option<DPad>)
    ensures r.Some? <==> |values| >= 4
    ensures r.Some? ==> r.value == Make(values[0], values[1], values[2], values[3]) && r.value.values == values[..4]
  {
    if |values| < 4 then Wrappers.None else Wrappers.Some(Make(values[0], values[1], values[2], values[3]))
  }

  /** `DPad.Default` and `DPad.VirtualConsole`. */
  const Default: DPad := Make(DekuMask, ZoraMask, Ocarina, GoronMask)
  const VirtualConsole: DPad := Make(None, ZoraMask, GoronMask, DekuMask)

  /** `DPad.Bytes`: each value cast to its byte, which for a byte-backed enum is the value itself. */
  function Bytes(pad: DPad): seq<byte> {
    pad.values
  }

  /** `DPad.Equals`: element-wise equality of the values. */
  predicate PadEquals(a: DPad, b: DPad) {
    |a.values| == |b.values| && forall i :: 0 <= i < |a.values| ==> a.values[i] == b.values[i]
  }

  /** Element-wise equality is equality of the pads, so two pads built from slots are equal iff every slot is. */
  lemma PadEqualsIsEquality(a: DPad, b: DPad)
    ensures PadEquals(a, b) <==> a == b
  {
    if PadEquals(a, b) {
      assert a.values == b.values;
    }
  }

  lemma PadEqualsBySlot(u: DPadValue, r: DPadValue, d: DPadValue, l: DPadValue,
                        u': DPadValue, r': DPadValue, d': DPadValue, l': DPadValue)
    ensures PadEquals(Make(u, r, d, l), Make(u', r', d', l')) <==> u == u' && r == r' && d == d' && l == l'
  {
    if PadEquals(Make(u, r, d, l), Make(u', r', d', l')) {
      assert Make(u, r, d, l).values[0] == Make(u', r', d', l').values[0];
      assert Make(u, r, d, l).values[1] == Make(u', r', d', l').values[1];
      assert Make(u, r, d, l).values[2] == Make(u', r', d', l').values[2];
      assert Make(u, r, d, l).values[3] == Make(u', r', d', l').values[3];
    }
  }

  /** The presets' bytes, and that they differ. */
  lemma PresetBytes()
    ensures Bytes(Default) == [0x32, 0x34, 0x00, 0x33]
    ensures Bytes(VirtualConsole) == [0xFF, 0x34, 0x33, 0x32]
    ensures !PadEquals(Default, VirtualConsole)
  {
    assert Default.values[0] != VirtualConsole.values[0];
  }

  // ---------------------------------------------------------------------------------------------
  // The configuration
  // ---------------------------------------------------------------------------------------------

  /** `DPadConfig`: the pad, whether it is used, and where it is displayed. */
  datatype DPadConfig = DPadConfig(pad: DPad, state: DPadState, display: DPadDisplay)

  /** `new DPadConfig()`. */
  const DefaultConfig: DPadConfig := DPadConfig(Default, Enabled, Left)

  /**
   * `DPadConfig.InUse`: one flag per slot. Nothing is in use while the D-Pad is disabled;
   * otherwise a slot is in use iff it is not empty.
   */
  function InUse(config: DPadConfig): (used: seq<bool>)
    ensures |used| == |config.pad.values|
    ensures forall i :: 0 <= i < |used| ==> (used[i] <==> config.state != Disabled && config.pad.values[i] != None)
  {
    var values := config.pad.values;
    if config.state == Disabled then seq(|values|, _ => false)
    else seq(|values|, i requires 0 <= i < |values| => values[i] != None)
  }

  /** `Defaults` uses the slots exactly as `Enabled` does. */
  lemma DefaultsUsesLikeEnabled(config: DPadConfig)
    ensures InUse(config.(state := Defaults)) == InUse(config.(state := Enabled))
  {
    var a, b := InUse(config.(state := Defaults)), InUse(config.(state := Enabled));
    assert forall i :: 0 <= i < |a| ==> a[i] == b[i];
  }

  /** The default configuration uses all four slots. */
  lemma DefaultConfigUsesAllSlots()
    ensures InUse(DefaultConfig) == [true, true, true, true]
  {
    var used := InUse(DefaultConfig);
    assert used[0] && used[1] && used[2] && used[3];
  }

  // ---------------------------------------------------------------------------------------------
  // The structure written into the ROM
  // ---------------------------------------------------------------------------------------------

  /** `DPadConfigStruct`; its `Items` array is a sequence here. */
  datatype DPadConfigStruct = DPadConfigStruct(version: uint32, items: seq<byte>, state: byte, display: byte)

  /** `Array.CopyTo` throws when the source is longer than the room left in the destination. */
  datatype CopyError = DestinationTooShort

  /** The length of the structure's `Items` array. */
  const ItemsLength: nat := 0x10

  /**
   * What `ToStruct(version)` builds: the pad's bytes copied to the front of a zeroed 16-byte
   * array, and the state and display as bytes.
   */
  function StructOf(config: DPadConfig, version: uint32): (r: Wrappers.Result<DPadConfigStruct, CopyError>)
    ensures r.Ok? <==> |config.pad.values| <= ItemsLength
  {
    var bytes := Bytes(config.pad);
    if |bytes| > ItemsLength then Wrappers.Err(DestinationTooShort)
    else Wrappers.Ok(DPadConfigStruct(version, bytes + seq(ItemsLength - |bytes|, _ => 0),
                                      StateByte(config.state), DisplayByte(config.display)))
  }

  /** The items of a built structure: 16 bytes, the pad's bytes first and zeros after. */
  lemma StructItems(config: DPadConfig, version: uint32)
    requires StructOf(config, version).Ok?
    ensures var s := StructOf(config, version).value;
      && |s.items| == ItemsLength
      && s.items[..|config.pad.values|] == Bytes(config.pad)
      && (forall i :: |config.pad.values| <= i < ItemsLength ==> s.items[i] == 0)
  {
    var s := StructOf(config, version).value;
    assert s.items[..|config.pad.values|] == Bytes(config.pad);
  }

  /**
   * `DPadConfig.ToStruct`: allocates the zeroed 16-byte `Items` array and copies the pad's bytes
   * into it from index 0.
   */
  method ToStruct(config: DPadConfig, version: uint32) returns (r: Wrappers.Result<DPadConfigStruct, CopyError>)
    ensures r == StructOf(config, version)
  {
    var items := new byte[ItemsLength](_ => 0);
    var bytes := Bytes(config.pad);
    if |bytes| > items.Length {
      return Wrappers.Err(DestinationTooShort);
    }
    var i := 0;
    while i < |bytes|
      invariant 0 <= i <= |bytes|
      invariant items[..i] == bytes[..i]
      invariant forall k :: i <= k < items.Length ==> items[k] == 0
    {
      items[i] := bytes[i];
      i := i + 1;
    }
    assert items[..] == bytes + seq(ItemsLength - |bytes|, _ => 0);
    r := Wrappers.Ok(DPadConfigStruct(version, items[..], StateByte(config.state), DisplayByte(config.display)));
  }

  /** A `uint` written most significant byte first, as the big-endian writer does. */
  function BigEndian32(v: uint32): (b: seq<byte>)
    ensures |b| == 4
  {
    [v / 0x100 / 0x100 / 0x100, v / 0x100 / 0x100 % 0x100, v / 0x100 % 0x100, v % 0x100]
  }

  /** The `uint` four bytes stand for, most significant first. */
  function ReadBigEndian32(b: seq<byte>): uint32
    requires |b| == 4
  {
    ((b[0] as int * 0x100 + b[1]) * 0x100 + b[2]) * 0x100 + b[3]
  }

  /** Splitting off the low byte and putting it back. */
  lemma LowByte(x: int, r: int)
    requires 0 <= r < 0x100
    ensures (x * 0x100 + r) / 0x100 == x && (x * 0x100 + r) % 0x100 == r
  {
  }

  lemma BigEndian32RoundTrip(v: uint32)
    ensures ReadBigEndian32(BigEndian32(v)) == v
  {
    var q1 := v / 0x100;
    var q2 := q1 / 0x100;
    assert q2 == q2 / 0x100 * 0x100 + q2 % 0x100;
    assert q1 == q2 * 0x100 + q1 % 0x100;
    assert v == q1 * 0x100 + v % 0x100;
  }

  lemma ReadBigEndian32RoundTrip(b: seq<byte>)
    requires |b| == 4
    ensures BigEndian32(ReadBigEndian32(b)) == b
  {
    var q2 := b[0] as int * 0x100 + b[1];
    var q1 := q2 * 0x100 + b[2];
    LowByte(q1, b[3]);
    LowByte(q2, b[2]);
    LowByte(b[0], b[1]);
  }

  /** What `DPadConfigStruct.ToBytes` writes: the version big-endian, the items, the state, the display. */
  function Encode(s: DPadConfigStruct): (bytes: seq<byte>)
    ensures |bytes| == 4 + |s.items| + 2
  {
    BigEndian32(s.version) + s.items + [s.state, s.display]
  }

  /**
   * `DPadConfigStruct.ToBytes`: writes the fields one after the other into a fresh buffer that
   * holds exactly what was written.
   */
  method ToBytes(s: DPadConfigStruct) returns (bytes: array<byte>)
    ensures fresh(bytes) && bytes[..] == Encode(s)
  {
    var n := |s.items|;
    bytes := new byte[4 + n + 2];
    var version := BigEndian32(s.version);
    bytes[0], bytes[1], bytes[2], bytes[3] := version[0], version[1], version[2], version[3];
    var i := 0;
    while i < n
      invariant 0 <= i <= n
      invariant bytes[..4] == version
      invariant bytes[4..4 + i] == s.items[..i]
    {
      bytes[4 + i] := s.items[i];
      i := i + 1;
    }
    bytes[4 + n] := s.state;
    bytes[4 + n + 1] := s.display;
    assert bytes[..] == bytes[..4] + bytes[4..4 + n] + [bytes[4 + n], bytes[4 + n + 1]];
  }

  /** Reads a 22-byte structure back: a big-endian `uint`, 16 item bytes, the state byte and the display byte. */
  function Decode(bytes: seq<byte>): Wrappers.Option<DPadConfigStruct> {
    if |bytes| != 4 + ItemsLength + 2 then Wrappers.None
    else Wrappers.Some(DPadConfigStruct(ReadBigEndian32(bytes[..4]), bytes[4..4 + ItemsLength],
                                        bytes[4 + ItemsLength], bytes[4 + ItemsLength + 1]))
  }

  /** Decoding what was encoded gives the structure back ... */
  lemma DecodeEncode(s: DPadConfigStruct)
    requires |s.items| == ItemsLength
    ensures Decode(Encode(s)) == Wrappers.Some(s)
  {
    var bytes := Encode(s);
    assert bytes[..4] == BigEndian32(s.version);
    assert bytes[4..4 + ItemsLength] == s.items;
    BigEndian32RoundTrip(s.version);
  }

  /** ... and encoding what was decoded gives the bytes back, so `Encode` is a bijection onto the 22-byte strings. */
  lemma EncodeDecode(bytes: seq<byte>)
    ensures Decode(bytes).Some? <==> |bytes| == 22
    ensures Decode(bytes).Some? ==> Encode(Decode(bytes).value) == bytes
  {
    if |bytes| == 22 {
      ReadBigEndian32RoundTrip(bytes[..4]);
      assert bytes == bytes[..4] + bytes[4..20] + [bytes[20], bytes[21]];
    }
  }

  /** Structures whose items have the same length are written the same way only if they are equal. */
  lemma EncodeInjective(a: DPadConfigStruct, b: DPadConfigStruct)
    requires |a.items| == |b.items|
    requires Encode(a) == Encode(b)
    ensures a == b
  {
    var n := |a.items|;
    assert BigEndian32(a.version) == Encode(a)[..4] == Encode(b)[..4] == BigEndian32(b.version);
    BigEndian32RoundTrip(a.version);
    BigEndian32RoundTrip(b.version);
    assert a.items == Encode(a)[4..4 + n] == Encode(b)[4..4 + n] == b.items;
    assert a.state == Encode(a)[4 + n] == Encode(b)[4 + n] == b.state;
  }

  /** The configuration a decoded structure stands for, reading the pad from its first four items. */
  function ConfigOf(s: DPadConfigStruct): Wrappers.Option<DPadConfig> {
    var state, display := StateOf(s.state), DisplayOf(s.display);
    if |s.items| < 4 || state.None? || display.None? then Wrappers.None
    else Wrappers.Some(DPadConfig(DPad(s.items[..4]), state.value, display.value))
  }

  /**
   * A configuration with the four slots every constructor gives is written as 22 bytes from
   * which its version and the whole configuration are read back.
   */
  lemma ConfigRoundTrip(config: DPadConfig, version: uint32)
    requires |config.pad.values| == 4
    ensures StructOf(config, version).Ok?
    ensures var bytes := Encode(StructOf(config, version).value);
      && |bytes| == 22
      && Decode(bytes).Some? && Decode(bytes).value.version == version
      && ConfigOf(Decode(bytes).value) == Wrappers.Some(config)
  {
    var s := StructOf(config, version).value;
    StructItems(config, version);
    DecodeEncode(s);
    StateBytesDecode(config.state, s.state);
    DisplayBytesDecode(config.display, s.display);
    assert s.items[..4] == config.pad.values;
  }

  /** The bytes the default configuration is written as. */
  lemma DefaultConfigBytes(version: uint32)
    ensures StructOf(DefaultConfig, version).Ok?
    ensures Encode(StructOf(DefaultConfig, version).value)
         == BigEndian32(version) + [0x32, 0x34, 0x00, 0x33] + seq(12, _ => 0) + [1, 1]
  {
  }
}
