/** The channel-message codec of the MIDI wrapper: `getData` turns the bytes of an
    incoming message into `{channel, type, data}`, `setData` turns an outgoing
    `{type, note, value, ...}` object and a channel index into bytes, and `parseNote`
    names a note number. Both codec directions cover the seven channel voice messages
    of the MIDI 1.0 Detailed Specification (status nibbles 0x8 to 0xE). */
module MidiCodec {
  import opened Wrappers
  import opened JsBits

  /** A JavaScript value as it occurs in a MIDI payload: an integral number, NaN
      (the result of arithmetic on undefined), or undefined (a missing byte or
      property). */
  datatype Val = Num(n: int) | NaN | Undefined

  /** ToInt32 of a payload value; NaN and undefined become 0. */
  function Int32Of(v: Val): int
  {
    match v
    case Num(n) => ToInt32(n)
    case _ => 0
  }

  /** `v - k` */
  function Minus(v: Val, k: int): Val
  {
    if v.Num? then Num(v.n - k) else NaN
  }

  /** `v + w` */
  function Plus(v: Val, w: Val): Val
  {
    if v.Num? && w.Num? then Num(v.n + w.n) else NaN
  }

  /** `v * k` */
  function Times(v: Val, k: int): Val
  {
    if v.Num? then Num(v.n * k) else NaN
  }

  /** `bytes[i]`: undefined past the end of the message. */
  function At(bytes: seq<int>, i: nat): Val
  {
    if i < |bytes| then Num(bytes[i]) else Undefined
  }

  /** The message types, in the order of `typeMap`. */
  datatype MsgType = NoteOff | NoteOn | AfterTouch | ControllerChange | ProgramChange | ChannelPressure | PitchBend

  const TypeMap: seq<MsgType> := [NoteOff, NoteOn, AfterTouch, ControllerChange, ProgramChange, ChannelPressure, PitchBend]

  /** The name under which `typeMap` lists a type; listeners are keyed by it. */
  function TypeName(t: MsgType): string
  {
    match t
    case NoteOff => "noteOff"
    case NoteOn => "noteOn"
    case AfterTouch => "afterTouch"
    case ControllerChange => "controllerChange"
    case ProgramChange => "programChange"
    case ChannelPressure => "channelPressure"
    case PitchBend => "pitchBend"
  }

  /** `typeMap[idx]`, undefined outside the table. */
  function TypeAt(idx: int): Option<MsgType>
  {
    if 0 <= idx < |TypeMap| then Some(TypeMap[idx]) else None
  }

  /** `typeMap.indexOf(data.type)`; `None` stands for undefined and for every name
      that is not in the table. */
  function TypeIndex(t: Option<MsgType>): (i: int)
    ensures -1 <= i < |TypeMap|
    ensures t.None? <==> i == -1
    ensures t.Some? ==> TypeMap[i] == t.value
  {
    match t
    case None => -1
    case Some(NoteOff) => 0
    case Some(NoteOn) => 1
    case Some(AfterTouch) => 2
    case Some(ControllerChange) => 3
    case Some(ProgramChange) => 4
    case Some(ChannelPressure) => 5
    case Some(PitchBend) => 6
  }

  /** `controllerMap[k]`: the five named controllers. */
  function ControllerName(k: Val): Option<string>
  {
    match k
    case Num(1) => Some("Modulation")
    case Num(7) => Some("Volume")
    case Num(10) => Some("Pan")
    case Num(11) => Some("Expression")
    case Num(64) => Some("Sustain")
    case _ => None
  }

  const NoteMap: seq<string> := ["C", "C#", "D", "Eb", "E", "F", "F#", "G", "Ab", "A", "Bb", "B"]

  /** The properties of a message's `data` object that the codec writes or reads;
      an absent property reads as undefined (`None` for the name). `setData` reads
      `controllerIdx` where `getData` writes `controllerIndex`. */
  datatype Fields = Fields(
    note: Val,
    value: Val,
    controllerIndex: Val,
    controllerName: Option<string>,
    program: Val,
    controllerIdx: Val)

  const NoFields: Fields := Fields(Undefined, Undefined, Undefined, None, Undefined, Undefined)

  /** What `getData` returns: the error object, or `{channel, type, data}`. */
  datatype Decoded =
    | StatusError(message: string)
    | Message(channel: int, msgType: Option<MsgType>, data: Fields)

  /** The guard `bytes[0] & 1 << 7 === 0`. `===` binds tighter than `&`, so it reads
      `bytes[0] & ((1 << 7) === 0)`, that is `bytes[0] & false`. */
  function StatusGuard(b0: Val): int
  {
    And(Int32Of(b0), if Shl(1, 7) == 0 then 1 else 0)
  }

  /** The `data` object `getData` builds for a message of type `t`. */
  function Payload(t: Option<MsgType>, bytes: seq<int>): Fields
  {
    match t
    case Some(NoteOff) | Some(NoteOn) | Some(AfterTouch) =>
      NoFields.(note := Minus(At(bytes, 1), 60), value := At(bytes, 2))
    case Some(ControllerChange) =>
      NoFields.(controllerIndex := At(bytes, 1), value := At(bytes, 2), controllerName := ControllerName(At(bytes, 1)))
    case Some(ProgramChange) =>
      NoFields.(program := At(bytes, 1))
    case Some(ChannelPressure) =>
      NoFields.(value := At(bytes, 1))
    case Some(PitchBend) =>
      NoFields.(value := Plus(Times(At(bytes, 1), 128), At(bytes, 2)))
    case None =>
      NoFields
  }

  /** `bytes[0] & 15` */
  function ChannelOf(b0: Val): int
  {
    And(Int32Of(b0), 15)
  }

  /** `typeMap[(bytes[0] >> 4) & 7]` */
  function TypeOf(b0: Val): Option<MsgType>
  {
    TypeAt(And(Shr(Int32Of(b0), 4), 7))
  }

  /** `getData`: decodes the bytes of an incoming message. The status guard never
      fires, so every message decodes, with a channel in 0..15. */
  function GetData(bytes: seq<int>): (d: Decoded)
    ensures d.Message? && 0 <= d.channel < 16
  {
    StatusGuardNeverFires(At(bytes, 0));
    ChannelRange(At(bytes, 0));
    if StatusGuard(At(bytes, 0)) != 0 then StatusError("First byte is not status")
    else
      var t := TypeOf(At(bytes, 0));
      Message(ChannelOf(At(bytes, 0)), t, Payload(t, bytes))
  }

  /** The status byte `setData` builds: `1 << 7 | channelIdx | typeIndex << 4`. */
  function StatusByte(t: Option<MsgType>, channelIdx: int): int
  {
    Or(Or(Shl(1, 7), channelIdx), Shl(TypeIndex(t), 4))
  }

  /** The two bytes `data.value >> 7` and `data.value & 127`. */
  function BendBytes(v: Val): seq<Val>
  {
    [Num(Shr(Int32Of(v), 7)), Num(And(Int32Of(v), 127))]
  }

  /** `setData` on its numeric-note branch: the bytes of an outgoing message, or
      `None` when it throws (a note type whose `note` is undefined reaches
      `data.note.match`). The `channelPressure` case has no `break` and runs on into
      the `pitchBend` case. */
  function SetData(t: Option<MsgType>, data: Fields, channelIdx: int): (r: Option<seq<Val>>)
    ensures r.None? <==> t.Some? && t.value in {NoteOff, NoteOn, AfterTouch} && data.note.Undefined?
    ensures r.Some? ==> |r.value| >= 1 && r.value[0] == Num(StatusByte(t, channelIdx))
  {
    var stat := Num(StatusByte(t, channelIdx));
    match t
    case Some(NoteOff) | Some(NoteOn) | Some(AfterTouch) =>
      if data.note.Undefined? then None
      else Some([stat, Plus(data.note, Num(60)), data.value])
    case Some(ControllerChange) => Some([stat, data.controllerIdx, data.value])
    case Some(ProgramChange) => Some([stat, data.program])
    case Some(ChannelPressure) => Some([stat, data.value] + BendBytes(data.value))
    case Some(PitchBend) => Some([stat] + BendBytes(data.value))
    case None => Some([stat])
  }

  /** JavaScript's `%` for a positive divisor: the remainder takes the sign of the
      dividend. */
  function JsRem(a: int, b: int): int
    requires b > 0
  {
    if a >= 0 then a % b else -((-a) % b)
  }

  /** `(noteIdx % 12 + 12) % 12`: the position of a note within its octave. */
  function NoteIndex(n: int): (i: int)
    ensures 0 <= i < 12
    ensures (n - i) % 12 == 0
  {
    JsRem(JsRem(n, 12) + 12, 12)
  }

  datatype NoteInfo = NoteInfo(octave: int, name: string)

  /** `parseNote` without its floating-point frequency: `Math.floor(n / 12)` (Dafny's
      division by a positive divisor rounds down) and the name from `noteMap`. */
  function ParseNote(n: int): (p: NoteInfo)
    ensures 12 * p.octave + NoteIndex(n) == n
    ensures p.name == NoteMap[NoteIndex(n)]
  {
    NoteInfo(n / 12, NoteMap[NoteIndex(n)])
  }

  // ---------------------------------------------------------------------------
  // Status byte

  /** The guard `bytes[0] & false` is 0 whatever the first byte is. */
  lemma StatusGuardNeverFires(b0: Val)
    ensures StatusGuard(b0) == 0
  {
    Pow2Small();
    ShlOfSmall(1, 7);
    assert BitAnd(ToUint32(Int32Of(b0)), 0) == 0;
  }

  lemma ChannelRange(b0: Val)
    ensures 0 <= ChannelOf(b0) < 16
  {
    AndMask(Int32Of(b0), 4);
    Pow2Small();
  }

  /** For a channel index 0..15 and a type in the table, the status byte is
      0x80 + 16 * typeIndex + channel: the type's status nibble 0x8..0xE above the
      channel. */
  lemma StatusByteValue(t: MsgType, c: int)
    requires 0 <= c < 16
    ensures StatusByte(Some(t), c) == 128 + 16 * TypeIndex(Some(t)) + c
  {
    var k := TypeIndex(Some(t));
    TopBit();
    TypeShift(k);
    LowNibbleOr(c);
    TypeNibbleOr(c, k);
  }

  /** `1 << 7` */
  lemma TopBit()
    ensures Shl(1, 7) == 128
  {
    Pow2Small();
    ShlOfSmall(1, 7);
  }

  /** `typeIndex << 4` for a type index 0..7 */
  lemma TypeShift(k: int)
    requires 0 <= k < 8
    ensures Shl(k, 4) == 16 * k
  {
    Pow2Small();
    assert k * Pow2(4) == 16 * k;
    ShlOfSmall(k, 4);
  }

  /** `128 | c` for a channel 0..15 */
  lemma LowNibbleOr(c: int)
    requires 0 <= c < 16
    ensures Or(128, c) == 128 + c
  {
    LowNibbleBits(c);
    OrOfSmall(128, c);
  }

  lemma LowNibbleBits(c: int)
    requires 0 <= c < 16
    ensures BitOr(128, c) == 128 + c
  {
    Pow2Small();
    BitOrCommutes(128, c);
    BitOrHigh(0, 8, c, 4);
    assert BitOr(0, 8) == 8;
  }

  /** `(128 + c) | 16 * k` for a channel 0..15 and a type index 0..7 */
  lemma TypeNibbleOr(c: int, k: int)
    requires 0 <= c < 16 && 0 <= k < 8
    ensures Or(128 + c, 16 * k) == 128 + 16 * k + c
  {
    TypeNibbleBits(c, k);
    OrOfSmall(128 + c, 16 * k);
  }

  lemma TypeNibbleBits(c: int, k: int)
    requires 0 <= c < 16 && 0 <= k < 8
    ensures BitOr(128 + c, 16 * k) == 128 + 16 * k + c
  {
    assert BitOr(8, k) == 8 + k by {
      Pow2Small();
      BitOrHigh(0, 1, k, 3);
      assert BitOr(0, 1) == 1;
      BitOrCommutes(8, k);
    }
    assert BitOr(16 * 8 + c, 16 * k) == 16 * BitOr(8, k) + c by {
      Pow2Small();
      BitOrHigh(8, k, c, 4);
    }
  }

  /** `bytes[0] & 15` and `(bytes[0] >> 4) & 7` on a byte value */
  lemma StatusFieldsOfByte(b: int)
    requires 0 <= b < 256
    ensures ChannelOf(Num(b)) == b % 16
    ensures TypeOf(Num(b)) == TypeAt((b / 16) % 8)
  {
    assert Int32Of(Num(b)) == b;
    Pow2Small();
    AndMask(b, 4);
    ShrOfSmall(b, 4);
    AndMask(b / 16, 3);
  }

  /** How `getData` reads a first byte 0..255: the channel is its low nibble; the
      type is `typeMap` at its high nibble taken modulo 8, so the data bytes
      0x00..0x6F decode as channel messages too, and 0x70..0x7F and 0xF0..0xFF
      decode with an undefined type. */
  lemma DecodeStatus(bytes: seq<int>)
    requires |bytes| >= 1 && 0 <= bytes[0] < 256
    ensures GetData(bytes).channel == bytes[0] % 16
    ensures GetData(bytes).msgType == TypeAt((bytes[0] / 16) % 8)
    ensures GetData(bytes).msgType.None? <==> bytes[0] / 16 == 7 || bytes[0] / 16 == 15
    ensures GetData(bytes).data == Payload(GetData(bytes).msgType, bytes)
  {
    var b, b0 := bytes[0], At(bytes, 0);
    assert b0 == Num(b);
    StatusFieldsOfByte(b);
    var d := GetData(bytes);
    assert d.channel == ChannelOf(b0) && d.msgType == TypeOf(b0) && d.data == Payload(d.msgType, bytes) by {
      StatusGuardNeverFires(b0);
    }
    UnknownNibble(b / 16);
  }

  /** `typeMap` has no entry at 7, so the high nibbles 7 and 15 have no type. */
  lemma UnknownNibble(h: int)
    requires 0 <= h < 16
    ensures TypeAt(h % 8).None? <==> h == 7 || h == 15
  {
    assert h % 8 == (if h < 8 then h else h - 8);
  }

  /** No first byte is refused: data bytes (below 0x80) decode as channel messages. */
  lemma NoByteIsRejected(bytes: seq<int>)
    requires |bytes| >= 1 && 0 <= bytes[0] < 0x80
    ensures GetData(bytes).Message?
    ensures bytes[0] < 0x70 ==> GetData(bytes).msgType == Some(TypeMap[bytes[0] / 16])
  {
    var b := bytes[0];
    if b < 0x70 {
      var h := b / 16;
      assert 0 <= h < 7 && h % 8 == h;
      assert GetData(bytes).msgType == TypeAt(h % 8) by {
        DecodeStatus(bytes);
      }
    }
  }

  /** A first byte 0x80 + 16 * k + c decodes as channel `c` and the `k`th type. */
  lemma DecodeKnownStatus(s: int, k: int, c: int, rest: seq<int>)
    requires 0 <= c < 16 && 0 <= k < 7 && s == 128 + 16 * k + c
    ensures GetData([s] + rest).channel == c && GetData([s] + rest).msgType == Some(TypeMap[k])
    ensures GetData([s] + rest).data == Payload(Some(TypeMap[k]), [s] + rest)
  {
    assert s % 16 == c && s / 16 == 8 + k by {
      ModUnique(s, 16, 8 + k, c);
    }
    assert (s / 16) % 8 == k;
    DecodeStatus([s] + rest);
  }

  /** `setData` then `getData` gives back the channel and the type. */
  lemma StatusRoundTrip(t: MsgType, c: int, rest: seq<int>)
    requires 0 <= c < 16
    ensures var s := StatusByte(Some(t), c);
      && 0x80 <= s < 0xF0
      && GetData([s] + rest) == Message(c, Some(t), Payload(Some(t), [s] + rest))
  {
    var k := TypeIndex(Some(t));
    var s := StatusByte(Some(t), c);
    assert s == 128 + 16 * k + c by {
      StatusByteValue(t, c);
    }
    DecodeKnownStatus(s, k, c, rest);
  }

  // ---------------------------------------------------------------------------
  // Payloads

  /** Note events round-trip: a numeric note goes out as `note + 60` and comes back
      as `bytes[1] - 60`; the velocity comes back unchanged. */
  lemma NoteRoundTrip(t: MsgType, c: int, note: int, value: int)
    requires t in {NoteOff, NoteOn, AfterTouch}
    requires 0 <= c < 16 && 0 <= note + 60 < 256 && 0 <= value < 256
    ensures var out := SetData(Some(t), NoFields.(note := Num(note), value := Num(value)), c);
      && out == Some([Num(StatusByte(Some(t), c)), Num(note + 60), Num(value)])
      && GetData([StatusByte(Some(t), c), note + 60, value])
         == Message(c, Some(t), NoFields.(note := Num(note), value := Num(value)))
  {
    var s := StatusByte(Some(t), c);
    var d := NoFields.(note := Num(note), value := Num(value));
    var bytes := [s, note + 60, value];
    assert SetData(Some(t), d, c) == Some([Num(s), Num(note + 60), Num(value)]);
    assert GetData(bytes) == Message(c, Some(t), d) by {
      assert bytes == [s] + [note + 60, value];
      StatusRoundTrip(t, c, [note + 60, value]);
      assert Payload(Some(t), bytes) == d;
    }
  }

  /** Program changes round-trip. */
  lemma ProgramRoundTrip(c: int, program: int)
    requires 0 <= c < 16 && 0 <= program < 256
    ensures var out := SetData(Some(ProgramChange), NoFields.(program := Num(program)), c);
      && out == Some([Num(StatusByte(Some(ProgramChange), c)), Num(program)])
      && GetData([StatusByte(Some(ProgramChange), c), program])
         == Message(c, Some(ProgramChange), NoFields.(program := Num(program)))
  {
    var s := StatusByte(Some(ProgramChange), c);
    var d := NoFields.(program := Num(program));
    assert SetData(Some(ProgramChange), d, c) == Some([Num(s), Num(program)]);
    assert GetData([s, program]) == Message(c, Some(ProgramChange), d) by {
      assert [s, program] == [s] + [program];
      StatusRoundTrip(ProgramChange, c, [program]);
    }
  }

  /** `value >> 7` and `value & 127` split a 14-bit value into two 7-bit data bytes,
      high part first. */
  lemma BendSplit(v: int)
    requires 0 <= v < 16384
    ensures BendBytes(Num(v)) == [Num(v / 128), Num(v % 128)]
    ensures 0 <= v / 128 < 128 && 0 <= v % 128 < 128
  {
    Pow2Small();
    AndMask(v, 7);
  }

  /** Pitch bend round-trips for 0 <= value < 16384: `setData` sends the high seven
      bits first and `getData` reads `bytes[1] * 128 + bytes[2]`. */
  lemma PitchBendRoundTrip(c: int, v: int)
    requires 0 <= c < 16 && 0 <= v < 16384
    ensures var s := StatusByte(Some(PitchBend), c);
      && SetData(Some(PitchBend), NoFields.(value := Num(v)), c) == Some([Num(s), Num(v / 128), Num(v % 128)])
      && GetData([s, v / 128, v % 128]) == Message(c, Some(PitchBend), NoFields.(value := Num(v)))
  {
    PitchBendOut(c, v);
    PitchBendIn(c, v);
  }

  lemma PitchBendOut(c: int, v: int)
    requires 0 <= v < 16384
    ensures SetData(Some(PitchBend), NoFields.(value := Num(v)), c)
      == Some([Num(StatusByte(Some(PitchBend), c)), Num(v / 128), Num(v % 128)])
  {
    var stat := Num(StatusByte(Some(PitchBend), c));
    BendSplit(v);
    assert [stat] + BendBytes(Num(v)) == [stat, Num(v / 128), Num(v % 128)];
  }

  lemma PitchBendIn(c: int, v: int)
    requires 0 <= c < 16 && 0 <= v < 16384
    ensures GetData([StatusByte(Some(PitchBend), c), v / 128, v % 128]) == Message(c, Some(PitchBend), NoFields.(value := Num(v)))
  {
    var s, hi, lo := StatusByte(Some(PitchBend), c), v / 128, v % 128;
    var bytes := [s, hi, lo];
    assert bytes == [s] + [hi, lo];
    StatusRoundTrip(PitchBend, c, [hi, lo]);
    assert At(bytes, 1) == Num(hi) && At(bytes, 2) == Num(lo);
    assert hi * 128 + lo == v;
    assert Plus(Times(Num(hi), 128), Num(lo)) == Num(v);
  }

  /** MIDI 1.0 sends a pitch bend's least significant seven bits first; `setData`
      sends the most significant seven first, so the centre position 0x2000 on
      channel `c` (v / 128 == 0x40, v % 128 == 0) goes out as En 40 00 where the
      standard has En 00 40. */
  lemma PitchBendIsMsbFirst(c: int, v: int)
    requires 0 <= c < 16 && 0 <= v < 16384
    ensures SetData(Some(PitchBend), NoFields.(value := Num(v)), c) == Some([Num(0xE0 + c), Num(v / 128), Num(v % 128)])
  {
    PitchBendOut(c, v);
    StatusByteValue(PitchBend, c);
  }

  /** The missing `break`: a channel-pressure message goes out as four bytes, the
      value followed by the two pitch-bend bytes of the same value. */
  lemma ChannelPressureFallsThrough(c: int, v: int)
    requires 0 <= c < 16 && 0 <= v < 16384
    ensures SetData(Some(ChannelPressure), NoFields.(value := Num(v)), c)
      == Some([Num(StatusByte(Some(ChannelPressure), c)), Num(v), Num(v / 128), Num(v % 128)])
  {
    var stat := Num(StatusByte(Some(ChannelPressure), c));
    var bend := BendBytes(Num(v));
    assert bend == [Num(v / 128), Num(v % 128)] by {
      BendSplit(v);
    }
    assert SetData(Some(ChannelPressure), NoFields.(value := Num(v)), c) == Some([stat, Num(v)] + bend);
    assert [stat, Num(v)] + bend == [stat, Num(v), Num(v / 128), Num(v % 128)];
  }

  /** `setData` reads `controllerIdx`, the name the decoder does not write: sending
      back the `data` of a decoded controller change puts undefined where the
      controller number belongs. */
  lemma ControllerResendLosesIndex(c: int, k: int, v: int)
    requires 0 <= c < 16 && 0 <= k < 128 && 0 <= v < 128
    ensures var s := StatusByte(Some(ControllerChange), c);
      var d := GetData([s, k, v]);
      && d.msgType == Some(ControllerChange)
      && d.data.controllerIndex == Num(k)
      && SetData(d.msgType, d.data, d.channel) == Some([Num(s), Undefined, Num(v)])
  {
    var s := StatusByte(Some(ControllerChange), c);
    var d := GetData([s, k, v]);
    assert d == Message(c, Some(ControllerChange), Payload(Some(ControllerChange), [s, k, v])) by {
      assert [s, k, v] == [s] + [k, v];
      StatusRoundTrip(ControllerChange, c, [k, v]);
    }
    assert d.data.controllerIndex == Num(k) && d.data.controllerIdx == Undefined && d.data.value == Num(v);
  }

  /** A controller change decodes with a `controllerName` exactly for the controllers
      1, 7, 10, 11 and 64. */
  lemma ControllerNaming(bytes: seq<int>)
    requires |bytes| >= 2 && 0 <= bytes[0] < 256 && bytes[0] / 16 == 0xB
    ensures GetData(bytes).msgType == Some(ControllerChange)
    ensures GetData(bytes).data.controllerName.Some? <==> bytes[1] in {1, 7, 10, 11, 64}
  {
    DecodeStatus(bytes);
  }

  /** A status byte 0xF0..0xFF decodes with an undefined type and an empty `data`. */
  lemma SystemStatusHasNoType(bytes: seq<int>)
    requires |bytes| >= 1 && 0xF0 <= bytes[0] < 0x100
    ensures GetData(bytes) == Message(bytes[0] % 16, None, NoFields)
  {
    DecodeStatus(bytes);
  }

  // ---------------------------------------------------------------------------
  // Note names

  /** The note index lies in 0..11 for every integer, negative ones included, and
      is the remainder of the note number modulo 12. */
  lemma NoteIndexIsModulo(n: int)
    ensures NoteIndex(n) == n % 12
  {
  }

  /** Different note numbers never share an octave and a name. */
  lemma ParseNoteInjective(m: int, n: int)
    requires ParseNote(m) == ParseNote(n)
    ensures m == n
  {
    var i, j := NoteIndex(m), NoteIndex(n);
    assert NoteMap[i] == NoteMap[j];
    assert i == j;
  }
}
