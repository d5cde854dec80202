/**
 * The capture side of the audio connection: the byte ring the audio-server callback writes into,
 * the audio sources discovered through the registry, and how a source is described.
 */
module AudioContext {
  import opened Common

  datatype MutateError =
    | Pipewire
    | Poison
    | AudioSource(message: string)
    | Dropped
    | AudioConnect(reason: string)
    | AudioTerminate
    | Timeout(reason: string)

  type U32 = x: nat | x < 0x1_0000_0000

  /** Capacity in bytes of the ring between the audio thread and its consumer. */
  const RingCapacity: nat := 1024 * 256

  /** One data block of a server buffer: its mapped bytes (if mapped), and the chunk's offset and size. */
  datatype Chunk = Chunk(data: Option<seq<bv8>>, offset: nat, size: nat)

  /** Every mapped chunk's byte range lies inside its data, so slicing it cannot panic. */
  predicate ChunksInBounds(datas: seq<Chunk>)
  {
    forall i :: 0 <= i < |datas| && datas[i].data.Some? ==> datas[i].offset + datas[i].size <= |datas[i].data.value|
  }

  /** The sum of the chunk sizes, mapped or not. */
  function TotalSize(datas: seq<Chunk>): nat
  {
    if datas == [] then 0 else TotalSize(datas[..|datas| - 1]) + datas[|datas| - 1].size
  }

  /** The bytes one chunk contributes: its `data[offset..offset + size]` when mapped, nothing otherwise. */
  function ChunkBytes(c: Chunk): (bytes: seq<bv8>)
    requires c.data.Some? ==> c.offset + c.size <= |c.data.value|
    ensures |bytes| <= c.size
  {
    if c.data.Some? then c.data.value[c.offset..c.offset + c.size] else []
  }

  /** The bytes the chunks contribute, in order. */
  function Payload(datas: seq<Chunk>): (bytes: seq<bv8>)
    requires ChunksInBounds(datas)
    ensures |bytes| <= TotalSize(datas)
  {
    if datas == [] then [] else Payload(datas[..|datas| - 1]) + ChunkBytes(datas[|datas| - 1])
  }

  /** How many of the oldest bytes a write of `total` bytes discards from a ring holding `occupied`. */
  function Discarded(occupied: nat, total: nat): nat
  {
    Max(0, total - (RingCapacity - occupied))
  }

  /** The state the audio thread shares with the consumer. */
  class AudioConnection {
    /** Unread bytes, oldest first. */
    var ring: seq<bv8>
    /** The mutex payload: how many chunks were written. */
    var chunks: nat
    /** The tombstone set when the other end went away. */
    var dropped: bool

    ghost predicate Valid()
      reads this
    {
      |ring| <= RingCapacity
    }

    constructor ()
      ensures Valid() && ring == [] && chunks == 0 && !dropped
    {
      ring := [];
      chunks := 0;
      dropped := false;
    }

    /**
     * `AudioProducer::write`: refuses a tombstoned connection and a buffer larger than the ring;
     * otherwise discards just enough of the oldest bytes for the whole buffer to fit, appends the
     * mapped chunks in order, counts one more chunk and reports how many bytes were pushed.
     */
    method Write(datas: seq<Chunk>) returns (r: Result<nat, MutateError>)
      requires Valid()
      requires ChunksInBounds(datas)
      modifies this`ring, this`chunks
      ensures Valid()
      ensures dropped ==> r == Err(Dropped) && ring == old(ring) && chunks == old(chunks)
      ensures !dropped && TotalSize(datas) > RingCapacity ==>
        r == Err(AudioSource("ring too small")) && ring == old(ring) && chunks == old(chunks)
      ensures !dropped && TotalSize(datas) <= RingCapacity ==>
        && r == Ok(|Payload(datas)|)
        && ring == old(ring)[Discarded(|old(ring)|, TotalSize(datas))..] + Payload(datas)
        && chunks == old(chunks) + 1
    {
      if dropped {
        return Err(Dropped);
      }
      var inputLen := TotalSize(datas);
      if inputLen > RingCapacity {
        return Err(AudioSource("ring too small"));
      }
      var vacant := RingCapacity - |ring|;
      ghost var discarded := Discarded(|ring|, inputLen);
      if inputLen > vacant {
        assert discarded == inputLen - vacant;
        ring := ring[inputLen - vacant..];
      } else {
        assert discarded == 0 && ring[discarded..] == ring;
      }
      ghost var kept := ring;
      var written := PushChunks(datas);
      assert ring == kept + Payload(datas);
      chunks := chunks + 1;
      r := Ok(written);
    }

    /** Pushes every mapped chunk's bytes, in order, into a ring with room for all of them. */
    method PushChunks(datas: seq<Chunk>) returns (written: nat)
      requires ChunksInBounds(datas)
      requires |ring| + TotalSize(datas) <= RingCapacity
      modifies this`ring
      ensures ring == old(ring) + Payload(datas)
      ensures written == |Payload(datas)|
    {
      written := 0;
      var i := 0;
      while i < |datas|
        invariant 0 <= i <= |datas|
        invariant ring == old(ring) + Payload(datas[..i])
        invariant written == |Payload(datas[..i])|
      {
        PrefixStep(datas, i);
        var pushed := PushChunk(datas[i]);
        written := written + pushed;
        i := i + 1;
      }
      assert datas[..|datas|] == datas;
    }

    /** `push_slice` of one chunk's mapped bytes, which fit in the ring. */
    method PushChunk(d: Chunk) returns (pushed: nat)
      requires d.data.Some? ==> d.offset + d.size <= |d.data.value|
      requires |ring| + d.size <= RingCapacity
      modifies this`ring
      ensures ring == old(ring) + ChunkBytes(d)
      ensures pushed == |ChunkBytes(d)|
    {
      pushed := 0;
      if d.data.Some? {
        var slice := d.data.value[d.offset..d.offset + d.size];
        pushed := Min(RingCapacity - |ring|, |slice|);
        ring := ring + slice[..pushed];
      }
    }
  }

  /**
   * Extending a prefix of the chunk list by one chunk extends its payload by that chunk's bytes,
   * and the bytes of the prefix and the size of the next chunk fit in the whole list's size.
   */
  lemma PrefixStep(datas: seq<Chunk>, i: nat)
    requires ChunksInBounds(datas) && i < |datas|
    ensures ChunksInBounds(datas[..i]) && ChunksInBounds(datas[..i + 1])
    ensures datas[i].data.Some? ==> datas[i].offset + datas[i].size <= |datas[i].data.value|
    ensures TotalSize(datas[..i + 1]) == TotalSize(datas[..i]) + datas[i].size
    ensures |Payload(datas[..i])| + datas[i].size <= TotalSize(datas)
    ensures Payload(datas[..i + 1]) == Payload(datas[..i]) + ChunkBytes(datas[i])
  {
    assert datas[..i + 1][..i] == datas[..i];
    PrefixSize(datas, i + 1);
  }

  /** A prefix of the chunk list is no larger than the whole list. */
  lemma {:induction false} PrefixSize(datas: seq<Chunk>, j: nat)
    requires j <= |datas|
    ensures TotalSize(datas[..j]) <= TotalSize(datas)
    decreases |datas| - j
  {
    if j < |datas| {
      assert datas[..j + 1][..j] == datas[..j];
      PrefixSize(datas, j + 1);
    } else {
      assert datas[..j] == datas;
    }
  }

  predicate IsDigit(c: char) { '0' <= c <= '9' }

  predicate AllDigits(s: string) { forall i :: 0 <= i < |s| ==> IsDigit(s[i]) }

  /** The value of a string of decimal digits, most significant first. */
  function DigitsValue(s: string): nat
    requires AllDigits(s)
  {
    if s == [] then 0 else DigitsValue(s[..|s| - 1]) * 10 + (s[|s| - 1] as int - '0' as int)
  }

  /** `str::parse::<u32>`: an optional `+`, then at least one decimal digit, with a value below 2^32. */
  function ParseU32(s: string): (r: Option<U32>)
    ensures r.Some? ==> |s| > 0 && (IsDigit(s[0]) || s[0] == '+')
  {
    var digits := if |s| > 0 && s[0] == '+' then s[1..] else s;
    if digits != [] && AllDigits(digits) && DigitsValue(digits) < 0x1_0000_0000 then Some(DigitsValue(digits)) else None
  }

  /** `s` is how Rust prints `n`: decimal digits of value `n`, with no leading zero unless `n` is zero. */
  predicate CanonicalDecimal(s: string, n: nat)
  {
    |s| > 0 && AllDigits(s) && DigitsValue(s) == n && (|s| > 1 ==> s[0] != '0')
  }

  /** A digit string that starts with a non-zero digit has a positive value. */
  lemma {:induction false} LeadingDigitPositive(s: string)
    requires |s| > 0 && AllDigits(s) && s[0] != '0'
    ensures DigitsValue(s) > 0
  {
    if |s| > 1 {
      var prefix := s[..|s| - 1];
      assert prefix[0] == s[0];
      LeadingDigitPositive(prefix);
    }
  }

  /** Each natural has exactly one canonical decimal string. */
  lemma {:induction false} CanonicalDecimalUnique(s: string, t: string, n: nat)
    requires CanonicalDecimal(s, n) && CanonicalDecimal(t, n)
    ensures s == t
  {
    var ps, pt := s[..|s| - 1], t[..|t| - 1];
    var ds, dt := s[|s| - 1] as int - '0' as int, t[|t| - 1] as int - '0' as int;
    assert IsDigit(s[|s| - 1]) && IsDigit(t[|t| - 1]);
    DivModUnique(n, 10, DigitsValue(ps), ds);
    DivModUnique(n, 10, DigitsValue(pt), dt);
    assert s[|s| - 1] == t[|t| - 1];
    if |s| > 1 {
      assert ps[0] == s[0];
      LeadingDigitPositive(ps);
    }
    if |t| > 1 {
      assert pt[0] == t[0];
      LeadingDigitPositive(pt);
    }
    if |s| > 1 && |t| > 1 {
      assert |ps| > 1 ==> ps[0] != '0';
      assert |pt| > 1 ==> pt[0] != '0';
      CanonicalDecimalUnique(ps, pt, n / 10);
      assert s == ps + [s[|s| - 1]] && t == pt + [t[|t| - 1]];
    }
  }

  /** `n.to_string()`: the decimal digits of `n` without leading zeros. */
  function Decimal(n: nat): (s: string)
    ensures CanonicalDecimal(s, n)
    ensures n > 0 ==> s[0] != '0'
  {
    var digit := ('0' as int + n % 10) as char;
    if n < 10 then [digit]
    else
      var prefix := Decimal(n / 10);
      assert (prefix + [digit])[..|prefix|] == prefix;
      prefix + [digit]
  }

  /** Printing a serial and parsing it back gives the serial. */
  lemma ParseDecimal(n: U32)
    ensures ParseU32(Decimal(n)) == Some(n)
  {
    assert IsDigit(Decimal(n)[0]);
  }

  /** An audio source offered to the user. */
  datatype AudioChoice = AudioChoice(objectSerial: U32, name: Option<string>, description: Option<string>, globalId: U32)

  /** The node properties the name is taken from, in order of preference. */
  const NameKeys: seq<string> := ["device.description", "device.nick", "device.name", "object.path"]

  /** `keys[i]` is the first of `keys` present in `props`. */
  predicate FirstPresentAt(props: map<string, string>, keys: seq<string>, i: int)
  {
    0 <= i < |keys| && keys[i] in props && forall j :: 0 <= j < i ==> keys[j] !in props
  }

  /** The value of the first of `keys` present in `props`. */
  function FirstPresent(props: map<string, string>, keys: seq<string>): (r: Option<string>)
    ensures r.None? <==> forall i :: 0 <= i < |keys| ==> keys[i] !in props
    ensures r.Some? ==> exists i :: FirstPresentAt(props, keys, i) && props[keys[i]] == r.value
  {
    if keys == [] then None
    else if keys[0] in props then Some(props[keys[0]])
    else
      var r := FirstPresent(props, keys[1..]);
      assert forall i :: FirstPresentAt(props, keys[1..], i) ==> FirstPresentAt(props, keys, i + 1);
      r
  }

  /** The first present key is the one whose value `FirstPresent` returns. */
  lemma FirstPresentIs(props: map<string, string>, keys: seq<string>, i: int)
    requires FirstPresentAt(props, keys, i)
    ensures FirstPresent(props, keys) == Some(props[keys[i]])
  {
    var r := FirstPresent(props, keys);
    var j :| FirstPresentAt(props, keys, j) && props[keys[j]] == r.value;
    assert i == j;
  }

  /**
   * `AudioChoice::try_new`: a source needs an `object.serial` that parses as a u32; its name is
   * the first present of `device.description`, `device.nick`, `device.name`, `object.path`, and its
   * description is `node.description`.
   */
  function TryNew(props: map<string, string>, globalId: U32): (r: Result<AudioChoice, MutateError>)
    ensures r.Err? <==> "object.serial" !in props || ParseU32(props["object.serial"]).None?
    ensures r.Err? ==> r.error == AudioSource("invalid or missing object.serial")
    ensures r.Ok? ==>
      && Some(r.value.objectSerial) == ParseU32(props["object.serial"])
      && r.value.globalId == globalId
      && (r.value.name.None? <==> forall i :: 0 <= i < |NameKeys| ==> NameKeys[i] !in props)
      && ("device.description" in props ==> r.value.name == Some(props["device.description"]))
      && ("device.description" !in props && "device.nick" in props ==> r.value.name == Some(props["device.nick"]))
      && ("device.description" !in props && "device.nick" !in props && "device.name" in props ==>
            r.value.name == Some(props["device.name"]))
      && ("device.description" !in props && "device.nick" !in props && "device.name" !in props && "object.path" in props ==>
            r.value.name == Some(props["object.path"]))
      && (r.value.description.Some? <==> "node.description" in props)
      && (r.value.description.Some? ==> r.value.description.value == props["node.description"])
  {
    var serial := if "object.serial" in props then ParseU32(props["object.serial"]) else None;
    if serial.None? then Err(AudioSource("invalid or missing object.serial"))
    else
      var description := if "node.description" in props then Some(props["node.description"]) else None;
      var name := FirstPresent(props, NameKeys);
      assert forall i | FirstPresentAt(props, NameKeys, i) :: name == Some(props[NameKeys[i]]) by {
        forall i | FirstPresentAt(props, NameKeys, i) {
          FirstPresentIs(props, NameKeys, i);
        }
      }
      assert "device.description" in props ==> FirstPresentAt(props, NameKeys, 0);
      assert "device.description" !in props && "device.nick" in props ==> FirstPresentAt(props, NameKeys, 1);
      assert "device.description" !in props && "device.nick" !in props && "device.name" in props ==>
        FirstPresentAt(props, NameKeys, 2);
      assert "device.description" !in props && "device.nick" !in props && "device.name" !in props && "object.path" in props ==>
        FirstPresentAt(props, NameKeys, 3);
      Ok(AudioChoice(serial.value, name, description, globalId))
  }

  /** `AudioChoice::name`: the name, else the description, else the serial in decimal. */
  function Name(c: AudioChoice): (s: string)
    ensures c.name.Some? ==> s == c.name.value
    ensures c.name.None? && c.description.Some? ==> s == c.description.value
    ensures c.name.None? && c.description.None? ==> CanonicalDecimal(s, c.objectSerial)
    ensures c.name.None? && c.description.None? ==> ParseU32(s) == Some(c.objectSerial)
  {
    if c.name.Some? then c.name.value
    else if c.description.Some? then c.description.value
    else ParseDecimal(c.objectSerial); Decimal(c.objectSerial)
  }

  /** `AudioChoice::id`: the serial in decimal. */
  function Id(c: AudioChoice): (s: string)
    ensures CanonicalDecimal(s, c.objectSerial)
    ensures ParseU32(s) == Some(c.objectSerial)
  {
    ParseDecimal(c.objectSerial); Decimal(c.objectSerial)
  }

  datatype ObjectType = NodeObject | OtherObject(name: string)

  predicate StartsWith(s: string, prefix: string) { |prefix| <= |s| && s[..|prefix|] == prefix }

  /** The registry listener only considers nodes whose `media.class` starts with `Audio/`. */
  predicate IsAudioNode(t: ObjectType, props: Option<map<string, string>>)
  {
    t == NodeObject && props.Some? && "media.class" in props.value && StartsWith(props.value["media.class"], "Audio/")
  }

  /** `choices[k]` is the first source with global id `id`. */
  predicate FirstWithId(choices: seq<AudioChoice>, id: U32, k: int)
  {
    0 <= k < |choices| && choices[k].globalId == id && forall j :: 0 <= j < k ==> choices[j].globalId != id
  }

  /** The list of sources the registry listeners keep up to date. */
  class ChoiceRegistry {
    var choices: seq<AudioChoice>

    constructor ()
      ensures choices == []
    {
      choices := [];
    }

    /** The `global` listener: appends the audio nodes that describe themselves well enough. */
    method OnGlobal(t: ObjectType, props: Option<map<string, string>>, id: U32)
      modifies this
      ensures !IsAudioNode(t, props) ==> choices == old(choices)
      ensures IsAudioNode(t, props) && TryNew(props.value, id).Err? ==> choices == old(choices)
      ensures IsAudioNode(t, props) && TryNew(props.value, id).Ok? ==> choices == old(choices) + [TryNew(props.value, id).value]
    {
      if t != NodeObject {
        return;
      }
      if props.Some? {
        if "media.class" in props.value && StartsWith(props.value["media.class"], "Audio/") {
          match TryNew(props.value, id)
          case Ok(choice) => choices := choices + [choice];
          case Err(_) =>
        }
      }
    }

    /** The `global_remove` listener: deletes the first source with the removed id, if any. */
    method OnGlobalRemove(id: U32)
      modifies this
      ensures (forall j :: 0 <= j < |old(choices)| ==> old(choices)[j].globalId != id) ==> choices == old(choices)
      ensures forall k :: FirstWithId(old(choices), id, k) ==> choices == old(choices)[..k] + old(choices)[k + 1..]
    {
      var i := 0;
      while i < |choices| && choices[i].globalId != id
        invariant 0 <= i <= |choices|
        invariant forall j :: 0 <= j < i ==> choices[j].globalId != id
      {
        i := i + 1;
      }
      if i < |choices| {
        choices := choices[..i] + choices[i + 1..];
      }
    }
  }
}
