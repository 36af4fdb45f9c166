/** The listener side of the MIDI wrapper: a `Channel` is an event target whose
    listeners are kept per event name, and `MidiEval` holds the sixteen channels,
    created once MIDI access is granted, and hands every decoded message to the
    channel it names. */
module MidiListeners {
  import opened Wrappers
  import opened Seqs
  import opened MidiCodec

  /** A listener function, compared by identity as JavaScript compares functions. */
  datatype Callback = Callback(id: nat)

  /** One call `listeners[i](data)` made by `_emit`. */
  datatype Invocation = Invocation(callback: Callback, event: Decoded)

  type Listeners = map<string, seq<Callback>>

  /** `this._listeners[key]`, with an absent key read as no listeners. */
  function ListenersOf(m: Listeners, key: string): seq<Callback>
  {
    if key in m then m[key] else []
  }

  /** The listener map after `on(key, callback)`: the callback joins the end of the
      key's list, which is created when absent; every other key keeps its list. */
  function AfterOn(m: Listeners, key: string, cb: Callback): (r: Listeners)
    ensures r.Keys == m.Keys + {key}
    ensures r[key] == ListenersOf(m, key) + [cb]
    ensures forall k :: k in m && k != key ==> r[k] == m[k]
  {
    m[key := ListenersOf(m, key) + [cb]]
  }

  /** The listener map after `off(key, callback)`: with a callback and a list for
      the key, the first registration of that callback leaves the list (nothing
      changes when it is not there); without a callback, or with no list for the
      key, the key is deleted. Every other key keeps its list. */
  function AfterOff(m: Listeners, key: string, cb: Option<Callback>): (r: Listeners)
    ensures cb.None? || key !in m ==> r.Keys == m.Keys - {key}
    ensures cb.Some? && key in m ==> r.Keys == m.Keys && r[key] == RemoveFirst(m[key], cb.value)
    ensures forall k :: k in m && k != key ==> k in r && r[k] == m[k]
  {
    if cb.Some? && key in m then m[key := RemoveFirst(m[key], cb.value)]
    else m - {key}
  }

  /** The property `_emit` looks up: `data.type`, which is `'error'` on the error
      object and undefined (the key `"undefined"`) for a status nibble outside
      `typeMap`. */
  function EventKey(d: Decoded): (r: string)
    ensures r == "error" <==> d.StatusError?
    ensures r == "undefined" <==> d.Message? && d.msgType.None?
  {
    match d
    case StatusError(_) => "error"
    case Message(_, None, _) => "undefined"
    case Message(_, Some(t), _) => TypeName(t)
  }

  /** `on` then `off` with the same callback gives back the listener map, when the key
      already had a list that did not hold the callback. */
  lemma OnThenOffRestores(m: Listeners, key: string, cb: Callback)
    requires key in m && cb !in m[key]
    ensures AfterOff(AfterOn(m, key, cb), key, Some(cb)) == m
  {
    var grown := AfterOn(m, key, cb);
    assert grown[key] == m[key] + [cb] && grown.Keys == m.Keys;
    var r := AfterOff(grown, key, Some(cb));
    assert r[key] == m[key] by {
      RemoveLast(m[key], cb);
    }
    assert r.Keys == m.Keys;
    assert forall k | k in r :: r[k] == m[k];
  }

  /** On a key that had no list, `on` then `off` leaves the key behind with an empty
      list, so the map is not restored. */
  lemma OnThenOffLeavesEmptyKey(m: Listeners, key: string, cb: Callback)
    requires key !in m
    ensures AfterOff(AfterOn(m, key, cb), key, Some(cb)) == m[key := []]
    ensures AfterOff(AfterOn(m, key, cb), key, Some(cb)) != m
  {
    var r := AfterOff(AfterOn(m, key, cb), key, Some(cb));
    RemoveFirstAppend([], cb, cb);
    assert [] + [cb] == [cb];
    assert r[key] == [];
    assert r.Keys == m.Keys + {key};
    assert key in r;
  }

  /** When the callback was registered before, `off` takes away the older
      registration: the new one stays, now last in the list. */
  lemma OnThenOffDropsOlderRegistration(m: Listeners, key: string, cb: Callback)
    requires key in m && cb in m[key]
    ensures AfterOff(AfterOn(m, key, cb), key, Some(cb))[key] == RemoveFirst(m[key], cb) + [cb]
  {
    RemoveFirstAppend(m[key], cb, cb);
  }

  /** `off` removes exactly one registration of the callback and keeps every other
      listener of the key. */
  lemma OffRemovesOneRegistration(m: Listeners, key: string, cb: Callback)
    requires key in m
    ensures multiset(AfterOff(m, key, Some(cb))[key]) == multiset(m[key]) - multiset{cb}
  {
    RemoveFirstMultiset(m[key], cb);
  }

  /** The message types are heard under their own names only: no type is keyed as
      `"error"` or `"undefined"`, and different types have different keys. */
  lemma EventKeysAreDistinct(d: Decoded, e: Decoded)
    requires d.Message? && d.msgType.Some? && e.Message? && e.msgType.Some?
    ensures EventKey(d) != "error" && EventKey(d) != "undefined"
    ensures EventKey(d) == EventKey(e) <==> d.msgType == e.msgType
  {
  }

  /** The listeners on `"undefined"` hear every message whose status nibble is 0x7
      or 0xF, since those decode with an undefined type. */
  lemma UndefinedKeyHearsUnknownStatus(bytes: seq<int>)
    requires |bytes| >= 1 && 0 <= bytes[0] < 256
    ensures EventKey(GetData(bytes)) == "undefined" <==> bytes[0] / 16 == 7 || bytes[0] / 16 == 15
  {
    DecodeStatus(bytes);
    var d := GetData(bytes);
    if d.msgType.Some? {
      assert EventKey(d) == TypeName(d.msgType.value);
    }
  }

  /** An event target keyed by event name. */
  class Channel {
    var listeners: Listeners

    constructor()
      ensures listeners == map[]
    {
      listeners := map[];
    }

    /** `on(key, callback)` */
    method On(key: string, cb: Callback)
      modifies this
      ensures listeners == AfterOn(old(listeners), key, cb)
    {
      var list := if key in listeners then listeners[key] else [];
      listeners := listeners[key := list + [cb]];
    }

    /** `off(key, callback)`; `None` stands for a missing callback. */
    method Off(key: string, cb: Option<Callback>)
      modifies this
      ensures listeners == AfterOff(old(listeners), key, cb)
    {
      if cb.Some? && key in listeners {
        var list := listeners[key];
        var idx := IndexOf(list, cb.value);
        if idx > -1 {
          listeners := listeners[key := list[..idx] + list[idx + 1..]];
        } else {
          assert listeners == listeners[key := RemoveFirst(list, cb.value)];
        }
      } else {
        listeners := listeners - {key};
      }
    }

    /** `_emit(data)`: calls the listeners registered under the message's type, in
        the order they were registered, each with the message. */
    method Emit(data: Decoded) returns (calls: seq<Invocation>)
      ensures |calls| == |ListenersOf(listeners, EventKey(data))|
      ensures forall i :: 0 <= i < |calls| ==> calls[i] == Invocation(ListenersOf(listeners, EventKey(data))[i], data)
    {
      var key := EventKey(data);
      calls := [];
      if key in listeners {
        var list := listeners[key];
        var i := 0;
        while i < |list|
          invariant 0 <= i <= |list|
          invariant |calls| == i
          invariant forall j :: 0 <= j < i ==> calls[j] == Invocation(list[j], data)
        {
          calls := calls + [Invocation(list[i], data)];
          i := i + 1;
        }
      }
    }
  }

  /** The MIDI wrapper's module state: whether access was granted, and the channels. */
  class MidiEval {
    var access: bool
    var channels: seq<Channel>

    constructor()
      ensures !access && channels == []
    {
      access := false;
      channels := [];
    }

    /** `init`, with the outcome of `requestMIDIAccess` as `granted`. Once access is
        held it only reports success; a grant adds sixteen new channels to whatever
        the list holds; a refusal changes nothing. */
    method Init(granted: bool) returns (success: bool)
      modifies this
      ensures old(access) ==> success && access && channels == old(channels)
      ensures !old(access) && granted ==>
        && success && access
        && |channels| == |old(channels)| + 16
        && channels[..|old(channels)|] == old(channels)
        && forall i :: |old(channels)| <= i < |channels| ==> fresh(channels[i]) && channels[i].listeners == map[]
      ensures !old(access) && !granted ==> !success && !access && channels == old(channels)
    {
      if access {
        return true;
      }
      if !granted {
        return false;
      }
      access := true;
      var i := 0;
      while i < 16
        invariant 0 <= i <= 16
        invariant access
        invariant |channels| == |old(channels)| + i
        invariant channels[..|old(channels)|] == old(channels)
        invariant forall j :: |old(channels)| <= j < |channels| ==> fresh(channels[j]) && channels[j].listeners == map[]
      {
        var ch := new Channel();
        channels := channels + [ch];
        i := i + 1;
      }
      success := true;
    }

    /** `destroy`, with the number of connected MIDI inputs as `inputs`. When access
        is held it first runs `removeListeners`, whose loop calls `removeEventListener`
        on the iterator's `{value, done}` record instead of on the input; with any
        input connected that call throws a TypeError (`threw`) before the channels
        and the access are dropped. */
    method Destroy(inputs: nat) returns (threw: bool)
      modifies this
      ensures threw <==> old(access) && inputs > 0
      ensures threw ==> access && channels == old(channels)
      ensures !threw && old(access) ==> !access && channels == []
      ensures !old(access) ==> !access && channels == old(channels)
    {
      if access {
        if inputs > 0 {
          return true;
        }
        channels := [];
        access := false;
      }
      threw := false;
    }

    /** `destroy` as evidently intended, with `removeEventListener` called on each
        input itself: whenever access is held, the channels and the access are
        dropped, however many inputs are connected. */
    method DestroyCorrected()
      modifies this
      ensures !access
      ensures old(access) ==> channels == []
      ensures !old(access) ==> channels == old(channels)
    {
      if access {
        channels := [];
        access := false;
      }
    }

    /** `getChannel(idx)`: channels are numbered from 1, so this is `channels[idx - 1]`,
        undefined outside the list. */
    function GetChannel(idx: int): (r: Option<Channel>)
      reads this
      ensures r.Some? <==> 1 <= idx <= |channels|
      ensures r.Some? ==> r.value == channels[idx - 1]
    {
      if 1 <= idx <= |channels| then Some(channels[idx - 1]) else None
    }

    /** `onMidi`: decodes the message and emits it on `channels[data.channel]`, the
        channel `getChannel(data.channel + 1)` returns. The decoder never returns its
        error object, so the `'error'` check has no effect and is not modelled. */
    method OnMidi(bytes: seq<int>) returns (calls: seq<Invocation>)
      ensures var d := GetData(bytes);
        match GetChannel(d.channel + 1)
        case None => calls == []
        case Some(ch) =>
          && |calls| == |ListenersOf(ch.listeners, EventKey(d))|
          && forall i :: 0 <= i < |calls| ==> calls[i] == Invocation(ListenersOf(ch.listeners, EventKey(d))[i], d)
    {
      var data := GetData(bytes);
      if data.channel < |channels| {
        var channel := channels[data.channel];
        calls := channel.Emit(data);
      } else {
        calls := [];
      }
    }
  }

  /** After a granted `init` on a fresh wrapper, `getChannel` answers for 1..16 and for
      nothing else, and every wire channel 0..15 has its channel. */
  method InitScenario() returns (w: MidiEval)
    ensures w.access && |w.channels| == 16
    ensures forall idx :: w.GetChannel(idx).Some? <==> 1 <= idx <= 16
  {
    w := new MidiEval();
    var ok := w.Init(true);
  }

  /** As written: with one input connected, `destroy` after a granted `init` throws
      and keeps the access and all sixteen channels, so a later `init` reports
      success without asking again. With the corrected `destroy` the wrapper is
      empty afterwards. */
  method DestroyWithInputKeepsState() returns (threw: bool, kept: nat, again: bool, correctedKept: nat)
    ensures threw && kept == 16 && again
    ensures correctedKept == 0
  {
    var w := new MidiEval();
    var ok := w.Init(true);
    threw := w.Destroy(1);
    kept := |w.channels|;
    again := w.Init(false);
    var v := new MidiEval();
    ok := v.Init(true);
    v.DestroyCorrected();
    correctedKept := |v.channels|;
  }
}
