/**
 * The parser context (gen_parser_t) as an object, with the materialiser's entry points as its
 * methods. Each loop is proved to compute exactly what the corresponding transition function
 * says; the properties of the assemblers are proved about those functions.
 */
module YamlParser {
  import opened Wrappers
  import opened Tokens
  import opened Containers
  import opened Scalars
  import opened MapAssembly
  import opened ListAssembly
  import opened SkipUnknown

  /**
   * One parsing session: the tokenizer's stream and cursor, the current text span (value and
   * length in one), the structural state and the termination flag.
   */
  class Parser {
    const tokens: seq<Token>
    var pos: nat
    var value: seq<byte>
    var state: ParserState
    var done: bool

    /** The session's state as a value. */
    function Snapshot(): Context
      reads this
    {
      Context(tokens, pos, value, state, done)
    }

    /** A session as parse_yaml sets it up: at the start of the stream, no span, inside a mapping, not done. */
    constructor (tokens: seq<Token>)
      ensures Snapshot() == Context(tokens, 0, [], InMapping, false)
    {
      this.tokens := tokens;
      pos := 0;
      value := [];
      state := InMapping;
      done := false;
    }

    /** yaml_parser_scan: the next token and the cursor moved past it, or None when the scan fails. */
    method Scan() returns (t: Option<Token>)
      modifies this`pos
      ensures old(pos) < |tokens| ==> t == Some(tokens[old(pos)]) && pos == old(pos) + 1
      ensures old(pos) >= |tokens| ==> t == None && pos == old(pos)
    {
      if pos >= |tokens| {
        return None;
      }
      t := Some(tokens[pos]);
      pos := pos + 1;
    }

    /**
     * parse_yaml_map. Outside the "inside a mapping" state it returns false and touches nothing.
     * Otherwise it stores an empty map in the slot and reads tokens, growing that map in place,
     * until the block or the stream ends (true), a mapping starts (false) or the scan fails
     * (false); the session and the slot end as the map loop says.
     */
    method ParseYamlMap(slot: Slot<GenMap>) returns (ok: bool)
      modifies this, slot
      ensures var r := AssembleMap(old(Snapshot()));
              && ok == r.ok && Snapshot() == r.ctx
              && slot.content == (if r.built.Some? then r.built else old(slot.content))
    {
      if state != InMapping {
        return false;
      }
      ghost var target := MapRun(Snapshot(), Start);
      var locals := Start;
      slot.content := Some(GenMap(locals.entries));
      while true
        invariant MapRun(Snapshot(), locals) == target
        invariant slot.content == Some(GenMap(locals.entries))
        decreases |tokens| - pos
      {
        ghost var before := Snapshot();
        ghost var previous := locals;
        var token := Scan();
        if token.None? {
          done := true;
          return false;
        }
        var t := token.value;
        var proceed, blockDone;
        proceed, locals, blockDone := MapToken(t, locals);
        if !proceed {
          return false;
        }
        slot.content := Some(GenMap(locals.entries));
        done := t == StreamEnd;
        if done || blockDone {
          assert MapRun(before, previous) == Assembled(true, Snapshot(), Some(GenMap(locals.entries)));
          return true;
        }
        assert MapRun(before, previous) == MapRun(Snapshot(), locals);
      }
    }

    /**
     * The body of parse_yaml_map's loop after a successful scan: the switch on the token and the
     * append of a value that completes a pair. `l` holds the locals `key`, `length` and `empty`
     * and the entries so far. A mapping start sets `done` and stops the loop (`proceed` false);
     * otherwise the session and the locals change as MapStep says and `blockDone` reports an
     * end-of-block.
     */
    method MapToken(t: Token, l: MapLoop) returns (proceed: bool, l': MapLoop, blockDone: bool)
      modifies this`state, this`value, this`done
      ensures var m := MapStep(old(Snapshot()), l, t);
              && proceed == m.Proceed?
              && Snapshot() == m.ctx
              && (proceed ==> l' == m.loop && blockDone == m.blockEnd)
    {
      var key, length, empty, entries := l.key, l.length, l.empty, l.entries;
      var next := false;
      blockDone := false;
      match t {
        case Key =>
          state := ExpectingKey;
        case Value =>
          state := ExpectingValue;
        case Scalar(text) =>
          if state == ExpectingKey {
            length := |text|;
            if key.Some? {
              if !empty {
                key := None;
              } else {
                entries := entries + [MapEntry(GenString(key, length), GenString(None, 0))];
                key := None;
              }
            }
            key := Some(text);
            empty := true;
          } else {
            empty := false;
            value := text;
            next := true;
          }
        case FlowMappingStart | BlockMappingStart =>
          done := true;
          return false, l, false;
        case BlockEnd =>
          blockDone := true;
        case _ =>
          empty := false;
      }
      if next {
        entries := entries + [MapEntry(GenString(key, length), Copy(value))];
        key := None;
      }
      return true, MapLoop(key, length, empty, entries), blockDone;
    }

    /**
     * parse_yaml_list. Outside the "inside a sequence" state it returns false and touches
     * nothing. Otherwise it stores an empty list in the slot and reads tokens, appending a copy of
     * every scalar, until the block or the stream ends (true), a key or a block mapping starts
     * (false) or the scan fails (false); the session and the slot end as the list loop says.
     */
    method ParseYamlList(slot: Slot<GenList>) returns (ok: bool)
      modifies this, slot
      ensures var r := AssembleList(old(Snapshot()));
              && ok == r.ok && Snapshot() == r.ctx
              && slot.content == (if r.built.Some? then r.built else old(slot.content))
    {
      if state != InSequence {
        return false;
      }
      ghost var target := ListRun(Snapshot(), []);
      var entries: seq<GenString> := [];
      slot.content := Some(GenList(entries));
      while true
        invariant ListRun(Snapshot(), entries) == target
        invariant slot.content == Some(GenList(entries))
        decreases |tokens| - pos
      {
        ghost var before := Snapshot();
        ghost var previous := entries;
        var token := Scan();
        if token.None? {
          done := true;
          return false;
        }
        var t := token.value;
        var proceed, blockDone;
        proceed, entries, blockDone := ListToken(t, entries);
        if !proceed {
          return false;
        }
        slot.content := Some(GenList(entries));
        done := t == StreamEnd;
        if done || blockDone {
          assert ListRun(before, previous) == Assembled(true, Snapshot(), Some(GenList(entries)));
          return true;
        }
        assert ListRun(before, previous) == ListRun(Snapshot(), entries);
      }
    }

    /**
     * The body of parse_yaml_list's loop after a successful scan: the switch on the token and the
     * append of a scalar's copy. A key or a block mapping start sets `done` and stops the loop
     * (`proceed` false); otherwise the session and the elements change as ListStep says and
     * `blockDone` reports an end-of-block.
     */
    method ListToken(t: Token, es: seq<GenString>) returns (proceed: bool, es': seq<GenString>, blockDone: bool)
      modifies this`state, this`value, this`done
      ensures var m := ListStep(old(Snapshot()), es, t);
              && proceed == m.Continue?
              && Snapshot() == m.ctx
              && (proceed ==> es' == m.entries && blockDone == m.blockEnd)
    {
      var next := false;
      blockDone := false;
      match t {
        case Key =>
          done := true;
          return false, es, false;
        case Value =>
          state := ExpectingValue;
        case Scalar(text) =>
          value := text;
          next := true;
        case BlockMappingStart =>
          done := true;
          return false, es, false;
        case BlockEnd =>
          blockDone := true;
        case _ =>
      }
      es' := es;
      if next {
        es' := es + [Copy(value)];
      }
      proceed := true;
    }

    /**
     * parse_yaml_skip_unknown_mapping: reads tokens, counting block mapping starts up and
     * end-of-block tokens down from one, until the count reaches zero or a stream-end sets
     * `done` (true), or the scan fails (false).
     */
    method SkipUnknownMapping() returns (ok: bool)
      modifies this`pos, this`done
      ensures var r := SkipMapping(old(Snapshot()));
              ok == r.ok && Snapshot() == r.ctx
    {
      ghost var target := SkipRun(Context(tokens, pos, value, state, done), 1);
      var count: nat := 1;
      while true
        invariant count >= 1 && SkipRun(Context(tokens, pos, value, state, done), count) == target
        decreases |tokens| - pos
      {
        ghost var before := Context(tokens, pos, value, state, done);
        ghost var depth := count;
        var token := Scan();
        if token.None? {
          done := true;
          return false;
        }
        var t := token.value;
        if t == BlockMappingStart {
          count := count + 1;
        } else if t == BlockEnd {
          count := count - 1;
        } else if t == StreamEnd {
          done := true;
        }
        if done || count == 0 {
          SkipLast(before, depth);
          return true;
        }
        assert Context(tokens, pos, value, state, done) == before.(pos := before.pos + 1) && count == depth + Delta(t);
        SkipStep(before, depth);
      }
    }

    /**
     * parse_yaml_integer: converts the current span; on success the slot holds the number, on
     * failure `done` is set and the slot is left alone.
     */
    method ParseYamlInteger(slot: Slot<int>) returns (ok: bool)
      modifies this`done, slot
      ensures var r := ParseInteger(value);
              && ok == r.Ok?
              && (r.Ok? ==> slot.content == Some(r.value) && done == old(done))
              && (r.Err? ==> slot.content == old(slot.content) && done)
    {
      var r := ParseInteger(value);
      if r.Err? {
        done := true;
        return false;
      }
      slot.content := Some(r.value);
      return true;
    }

    /**
     * parse_yaml_boolean: the current span must read "yes" or "no"; on success the slot holds
     * the truth value, on failure `done` is set and the slot is left alone.
     */
    method ParseYamlBoolean(slot: Slot<bool>) returns (ok: bool)
      modifies this`done, slot
      ensures var r := BooleanValue(value);
              && ok == r.Some?
              && (r.Some? ==> slot.content == r && done == old(done))
              && (r.None? ==> slot.content == old(slot.content) && done)
    {
      var r := BooleanValue(value);
      if r.None? {
        done := true;
        return false;
      }
      slot.content := r;
      return true;
    }

    /**
     * parse_yaml_string: outside the "value" state it succeeds and stores nothing; otherwise it
     * stores a copy of the current span, bytes and length.
     */
    method ParseYamlString(slot: Slot<GenString>) returns (ok: bool)
      modifies slot
      ensures ok
      ensures state != ExpectingValue ==> slot.content == old(slot.content)
      ensures state == ExpectingValue ==> slot.content == Some(GenString(Some(value), |value|))
    {
      if state != ExpectingValue {
        return true;
      }
      slot.content := Some(Copy(value));
      return true;
    }
  }
}
