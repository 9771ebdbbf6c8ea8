/**
 * The generic containers the assemblers build (gen_string_t, gen_map_entry_t, gen_map_t,
 * gen_list_t), the caller-owned out-slots they are stored into, and the release operations.
 */
module Containers {
  import opened Wrappers
  import opened Tokens

  /** An owned byte buffer (null or not) with its separately recorded length. */
  datatype GenString = GenString(data: Option<seq<byte>>, length: nat)

  /** One (key, value) pair of a map; either side may hold a null buffer. */
  datatype MapEntry = MapEntry(key: GenString, value: GenString)

  /** An ordered association list; keys need not be unique. */
  datatype GenMap = GenMap(entries: seq<MapEntry>)

  /** An ordered list of strings. */
  datatype GenList = GenList(entries: seq<GenString>)

  /** What an assembler leaves behind: its return value, the context, and what it stored in the slot (None: slot untouched). */
  datatype Assembled<T> = Assembled(ok: bool, ctx: Context, built: Option<T>)

  /** A fresh copy of a text span: its bytes and its length. */
  function Copy(text: seq<byte>): (s: GenString)
    ensures s.data == Some(text) && s.length == |text|
  {
    GenString(Some(text), |text|)
  }

  /** A caller-owned pointer slot (`T**`): empty is the null pointer. */
  class Slot<T> {
    var content: Option<T>

    constructor (content: Option<T>)
      ensures this.content == content
    {
      this.content := content;
    }
  }

  /** The buffer a string owns, if any. */
  function Owned(s: GenString): multiset<seq<byte>>
  {
    if s.data.Some? then multiset{s.data.value} else multiset{}
  }

  /** Every buffer owned by the entries of a map: each key and each value that is not null. */
  function MapBuffers(es: seq<MapEntry>): multiset<seq<byte>>
  {
    if es == [] then multiset{} else Owned(es[0].key) + Owned(es[0].value) + MapBuffers(es[1..])
  }

  /** Every buffer owned by the elements of a list. */
  function ListBuffers(es: seq<GenString>): multiset<seq<byte>>
  {
    if es == [] then multiset{} else Owned(es[0]) + ListBuffers(es[1..])
  }

  /** free_yaml_integer: empties the slot; an empty slot is left as it is. */
  method FreeYamlInteger(slot: Slot<int>)
    modifies slot
    ensures slot.content == None
  {
    if slot.content == None { return; }
    slot.content := None;
  }

  /** free_yaml_boolean: empties the slot; an empty slot is left as it is. */
  method FreeYamlBoolean(slot: Slot<bool>)
    modifies slot
    ensures slot.content == None
  {
    if slot.content == None { return; }
    slot.content := None;
  }

  /** free_yaml_string: empties the slot and releases the string's buffer, if it has one. */
  method FreeYamlString(slot: Slot<GenString>) returns (released: seq<seq<byte>>)
    modifies slot
    ensures slot.content == None
    ensures old(slot.content) == None ==> released == []
    ensures old(slot.content).Some? ==> multiset(released) == Owned(old(slot.content).value)
  {
    released := [];
    if slot.content == None { return; }
    var c := slot.content.value;
    slot.content := None;
    if c.data.Some? {
      released := [c.data.value];
    }
  }

  /**
   * free_yaml_map: empties the slot, then walks the entries from the last to the first and
   * releases each key and each value buffer that is not null.
   */
  method FreeYamlMap(slot: Slot<GenMap>) returns (released: seq<seq<byte>>)
    modifies slot
    ensures slot.content == None
    ensures old(slot.content) == None ==> released == []
    ensures old(slot.content).Some? ==> multiset(released) == MapBuffers(old(slot.content).value.entries)
  {
    released := [];
    if slot.content == None { return; }
    var c := slot.content.value;
    slot.content := None;
    var length := |c.entries|;
    while length > 0
      invariant 0 <= length <= |c.entries|
      invariant multiset(released) == MapBuffers(c.entries[length..])
    {
      length := length - 1;
      var e := c.entries[length];
      assert c.entries[length..][1..] == c.entries[length + 1..];
      if e.key.data.Some? {
        released := released + [e.key.data.value];
      }
      if e.value.data.Some? {
        released := released + [e.value.data.value];
      }
    }
  }

  /** free_yaml_list: empties the slot, then releases the elements' buffers from the last to the first. */
  method FreeYamlList(slot: Slot<GenList>) returns (released: seq<seq<byte>>)
    modifies slot
    ensures slot.content == None
    ensures old(slot.content) == None ==> released == []
    ensures old(slot.content).Some? ==> multiset(released) == ListBuffers(old(slot.content).value.entries)
  {
    released := [];
    if slot.content == None { return; }
    var c := slot.content.value;
    slot.content := None;
    var length := |c.entries|;
    while length > 0
      invariant 0 <= length <= |c.entries|
      invariant multiset(released) == ListBuffers(c.entries[length..])
    {
      length := length - 1;
      assert c.entries[length..][1..] == c.entries[length + 1..];
      if c.entries[length].data.Some? {
        released := released + [c.entries[length].data.value];
      }
    }
  }
}
