/** The MIDI codec with its four defects corrected: the status guard masks the top bit
    as `(bytes[0] & (1 << 7)) === 0` intends, `setData` writes `controllerIndex` (the
    name the decoder produces), `channelPressure` ends with its own `break`, and pitch
    bend travels least significant seven bits first, as the MIDI 1.0 Detailed
    Specification lays out the Pitch Bend Change message. Channel and type decoding and
    the status byte are those of `MidiCodec`. */
module MidiCodecFixed {
  import opened Wrappers
  import opened JsBits
  import opened MidiCodec

  /** The number of data bytes each channel voice message carries in MIDI 1.0. */
  function DataLength(t: MsgType): nat
  {
    match t
    case ProgramChange | ChannelPressure => 1
    case _ => 2
  }

  /** A complete channel voice message: a status byte 0x80..0xEF followed by exactly
      the data bytes its type takes, each 0..127. */
  predicate WellFormed(bytes: seq<int>)
  {
    && |bytes| >= 1
    && 0x80 <= bytes[0] < 0xF0
    && |bytes| == 1 + DataLength(TypeMap[bytes[0] / 16 - 8])
    && forall i :: 1 <= i < |bytes| ==> 0 <= bytes[i] < 0x80
  }

  /** The wire bytes as payload values. */
  function Nums(bytes: seq<int>): seq<Val>
  {
    seq(|bytes|, i requires 0 <= i < |bytes| => Num(bytes[i]))
  }

  /** The `data` object of the corrected decoder: pitch bend reads `bytes[1]` as the
      low seven bits; every other type as `getData` does. */
  function FixedPayload(t: Option<MsgType>, bytes: seq<int>): Fields
  {
    if t == Some(PitchBend) then NoFields.(value := Plus(At(bytes, 1), Times(At(bytes, 2), 128)))
    else Payload(t, bytes)
  }

  /** The corrected `getData`: the guard is `(bytes[0] & (1 << 7)) === 0`. */
  function Decode(bytes: seq<int>): (r: Decoded)
    ensures r.Message? ==> r.channel == GetData(bytes).channel && r.msgType == GetData(bytes).msgType
    ensures r.Message? && r.msgType != Some(PitchBend) ==> r == GetData(bytes)
  {
    var b0 := At(bytes, 0);
    if And(Int32Of(b0), Shl(1, 7)) == 0 then StatusError("First byte is not status")
    else
      var t := TypeOf(b0);
      Message(ChannelOf(b0), t, FixedPayload(t, bytes))
  }

  /** The corrected `setData` on its numeric-note branch. Every known type gets exactly
      the data bytes MIDI 1.0 gives it. */
  function Encode(t: Option<MsgType>, data: Fields, channelIdx: int): (r: Option<seq<Val>>)
    ensures r.None? <==> t.Some? && t.value in {NoteOff, NoteOn, AfterTouch} && data.note.Undefined?
    ensures r.Some? ==> |r.value| >= 1 && r.value[0] == Num(StatusByte(t, channelIdx))
    ensures r.Some? && t.Some? ==> |r.value| == 1 + DataLength(t.value)
  {
    var stat := Num(StatusByte(t, channelIdx));
    match t
    case Some(NoteOff) | Some(NoteOn) | Some(AfterTouch) =>
      if data.note.Undefined? then None
      else Some([stat, Plus(data.note, Num(60)), data.value])
    case Some(ControllerChange) => Some([stat, data.controllerIndex, data.value])
    case Some(ProgramChange) => Some([stat, data.program])
    case Some(ChannelPressure) => Some([stat, data.value])
    case Some(PitchBend) =>
      var bend := BendBytes(data.value);
      Some([stat, bend[1], bend[0]])
    case None => Some([stat])
  }

  /** The corrected guard refuses exactly the messages whose first byte is a data
      byte (top bit clear), and the empty message. */
  lemma DecodeRejectsDataBytes(bytes: seq<int>)
    requires |bytes| >= 1 ==> 0 <= bytes[0] < 256
    ensures Decode(bytes).StatusError? <==> |bytes| == 0 || bytes[0] < 0x80
  {
    assert Shl(1, 7) == 128 by {
      Pow2Small();
      ShlOfSmall(1, 7);
    }
    if |bytes| == 0 {
      assert And(0, 128) == 0 by {
        AndTopBit(0);
      }
    } else {
      var b := bytes[0];
      assert Int32Of(At(bytes, 0)) == b;
      AndTopBit(b);
    }
  }

  /** The header of a well-formed message decodes to its channel and type, and the
      status byte the encoder builds for them is the original first byte. */
  lemma DecodeHeader(bytes: seq<int>)
    requires WellFormed(bytes)
    ensures var b0 := bytes[0];
      var t := TypeMap[b0 / 16 - 8];
      && Decode(bytes) == Message(b0 % 16, Some(t), FixedPayload(Some(t), bytes))
      && StatusByte(Some(t), b0 % 16) == b0
  {
    var b0 := bytes[0];
    var k := b0 / 16 - 8;
    var c := b0 % 16;
    var t := TypeMap[k];
    assert Decode(bytes).Message? by {
      DecodeRejectsDataBytes(bytes);
    }
    assert ChannelOf(Num(b0)) == c && TypeOf(Num(b0)) == TypeAt((b0 / 16) % 8) by {
      StatusFieldsOfByte(b0);
    }
    assert (b0 / 16) % 8 == k by {
      var h := b0 / 16;
      assert 8 <= h < 15;
      ModUnique(h, 8, 1, k);
    }
    assert TypeIndex(Some(t)) == k;
    assert StatusByte(Some(t), c) == b0 by {
      StatusByteValue(t, c);
    }
  }

  /** Pitch bend: `bytes[1] + bytes[2] * 128` goes back out as `bytes[1], bytes[2]`. */
  lemma PitchBendBytesRoundTrip(lo: int, hi: int)
    requires 0 <= lo < 128 && 0 <= hi < 128
    ensures BendBytes(Plus(Num(lo), Times(Num(hi), 128))) == [Num(hi), Num(lo)]
  {
    var v := lo + hi * 128;
    assert Plus(Num(lo), Times(Num(hi), 128)) == Num(v);
    assert v / 128 == hi && v % 128 == lo by {
      ModUnique(v, 128, hi, lo);
    }
    BendSplit(v);
  }

  /** Every well-formed channel voice message survives decoding and re-encoding
      byte for byte. */
  lemma RoundTrip(bytes: seq<int>)
    requires WellFormed(bytes)
    ensures var d := Decode(bytes);
      d.Message? && d.msgType.Some? && Encode(d.msgType, d.data, d.channel) == Some(Nums(bytes))
  {
    var b0 := bytes[0];
    var t := TypeMap[b0 / 16 - 8];
    DecodeHeader(bytes);
    var data := FixedPayload(Some(t), bytes);
    assert Encode(Some(t), data, b0 % 16) == Some(Nums(bytes)) by {
      EncodePayload(bytes, t, data);
    }
  }

  /** The case analysis behind `RoundTrip`, one message type at a time. */
  lemma EncodePayload(bytes: seq<int>, t: MsgType, data: Fields)
    requires WellFormed(bytes) && t == TypeMap[bytes[0] / 16 - 8] && data == FixedPayload(Some(t), bytes)
    requires StatusByte(Some(t), bytes[0] % 16) == bytes[0]
    ensures Encode(Some(t), data, bytes[0] % 16) == Some(Nums(bytes))
  {
    if DataLength(t) == 1 {
      EncodeOneByte(bytes, t, data);
    } else {
      EncodeTwoBytes(bytes, t, data);
    }
  }

  lemma EncodeOneByte(bytes: seq<int>, t: MsgType, data: Fields)
    requires WellFormed(bytes) && t == TypeMap[bytes[0] / 16 - 8] && data == FixedPayload(Some(t), bytes)
    requires StatusByte(Some(t), bytes[0] % 16) == bytes[0] && DataLength(t) == 1
    ensures Encode(Some(t), data, bytes[0] % 16) == Some(Nums(bytes))
  {
    var stat := Num(bytes[0]);
    assert |bytes| == 2;
    assert Nums(bytes) == [stat, Num(bytes[1])];
    assert t == ProgramChange || t == ChannelPressure;
  }

  lemma EncodeTwoBytes(bytes: seq<int>, t: MsgType, data: Fields)
    requires WellFormed(bytes) && t == TypeMap[bytes[0] / 16 - 8] && data == FixedPayload(Some(t), bytes)
    requires StatusByte(Some(t), bytes[0] % 16) == bytes[0] && DataLength(t) == 2
    ensures Encode(Some(t), data, bytes[0] % 16) == Some(Nums(bytes))
  {
    assert |bytes| == 3 && 0 <= bytes[1] < 0x80 && 0 <= bytes[2] < 0x80;
    if t == PitchBend {
      EncodeBend(bytes, data);
    } else {
      EncodeNoteOrController(bytes, t, data);
    }
  }

  lemma EncodeBend(bytes: seq<int>, data: Fields)
    requires |bytes| == 3 && 0 <= bytes[1] < 0x80 && 0 <= bytes[2] < 0x80
    requires data == FixedPayload(Some(PitchBend), bytes) && StatusByte(Some(PitchBend), bytes[0] % 16) == bytes[0]
    ensures Encode(Some(PitchBend), data, bytes[0] % 16) == Some(Nums(bytes))
  {
    assert Nums(bytes) == [Num(bytes[0]), Num(bytes[1]), Num(bytes[2])];
    PitchBendBytesRoundTrip(bytes[1], bytes[2]);
  }

  lemma EncodeNoteOrController(bytes: seq<int>, t: MsgType, data: Fields)
    requires |bytes| == 3 && t in {NoteOff, NoteOn, AfterTouch, ControllerChange}
    requires data == FixedPayload(Some(t), bytes) && StatusByte(Some(t), bytes[0] % 16) == bytes[0]
    ensures Encode(Some(t), data, bytes[0] % 16) == Some(Nums(bytes))
  {
    assert Nums(bytes) == [Num(bytes[0]), Num(bytes[1]), Num(bytes[2])];
  }

  /** Pitch bend goes out low seven bits first: the centre position 0x2000 on
      channel `c` (v % 128 == 0, v / 128 == 0x40) is En 00 40. */
  lemma PitchBendIsLsbFirst(c: int, v: int)
    requires 0 <= c < 16 && 0 <= v < 16384
    ensures Encode(Some(PitchBend), NoFields.(value := Num(v)), c) == Some([Num(0xE0 + c), Num(v % 128), Num(v / 128)])
  {
    BendSplit(v);
    StatusByteValue(PitchBend, c);
  }
}
