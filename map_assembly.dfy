/**
 * The map assembler (parse_yaml_map) as a transition function over tokens, and what it does
 * with well-formed, malformed and truncated input.
 */
module MapAssembly {
  import opened Wrappers
  import opened Tokens
  import opened Containers

  /**
   * The assembler's locals: the pending key buffer (None is the null pointer), the length last
   * read from a key token, the "fresh" flag `empty`, and the entries committed so far.
   */
  datatype MapLoop = MapLoop(key: Option<seq<byte>>, length: nat, empty: bool, entries: seq<MapEntry>)

  /** The loop state the assembler starts from. */
  const Start: MapLoop := MapLoop(None, 0, true, [])

  /** One token's effect: go on (saying whether it was an end-of-block token), or fail. */
  datatype MapMove = Proceed(ctx: Context, loop: MapLoop, blockEnd: bool) | Abort(ctx: Context)

  /**
   * The locals after a scalar read while expecting a key: it becomes the pending key and is
   * fresh. An older pending key still fresh is committed with a null value, one that is no
   * longer fresh is dropped; either way the committed entry's key length is the new token's.
   */
  function AfterKey(l: MapLoop, k: seq<byte>): MapLoop
  {
    var kept := if l.key.Some? && l.empty
      then l.entries + [MapEntry(GenString(l.key, |k|), GenString(None, 0))]
      else l.entries;
    MapLoop(Some(k), |k|, true, kept)
  }

  /**
   * The transition table of the map loop for token `t`, from the context `c` in which `t`
   * has already been read.
   */
  function MapStep(c: Context, l: MapLoop, t: Token): (m: MapMove)
    ensures m.ctx.tokens == c.tokens && m.ctx.pos == c.pos
  {
    match t
    case Key => Proceed(c.(state := ExpectingKey), l, false)
    case Value => Proceed(c.(state := ExpectingValue), l, false)
    case Scalar(text) =>
      if c.state == ExpectingKey then Proceed(c, AfterKey(l, text), false)
      else
        var e := MapEntry(GenString(l.key, l.length), Copy(text));
        Proceed(c.(value := text), MapLoop(None, l.length, false, l.entries + [e]), false)
    case FlowMappingStart | BlockMappingStart => Abort(c.(done := true))
    case BlockEnd => Proceed(c, l, true)
    case _ => Proceed(c, l.(empty := false), false)
  }

  /**
   * The map loop from context `c` and locals `l`: read a token (a failed scan sets `done` and
   * fails), apply MapStep, set `done` iff the token ended the stream, and go on unless `done`
   * is set or the block ended.
   */
  function MapRun(c: Context, l: MapLoop): (r: Assembled<GenMap>)
    decreases |c.tokens| - c.pos
  {
    if c.pos >= |c.tokens| then Assembled(false, c.(done := true), Some(GenMap(l.entries)))
    else
      var t := c.tokens[c.pos];
      match MapStep(c.(pos := c.pos + 1), l, t)
      case Abort(c') => Assembled(false, c', Some(GenMap(l.entries)))
      case Proceed(c', l', blockEnd) =>
        var c'' := c'.(done := t == StreamEnd);
        if !c''.done && !blockEnd then MapRun(c'', l')
        else Assembled(true, c'', Some(GenMap(l'.entries)))
  }

  /**
   * parse_yaml_map: outside the "inside a mapping" state it fails at once, consuming nothing
   * and leaving the slot alone; otherwise it runs the map loop from an empty map.
   */
  function AssembleMap(c: Context): Assembled<GenMap>
  {
    if c.state != InMapping then Assembled(false, c, None) else MapRun(c, Start)
  }

  // ---------------------------------------------------------------------------------------
  // Entry guard, append-only growth and termination.

  /** The map only grows at its end: the entries committed before the loop are never changed. */
  lemma {:induction false} MapAppendsOnly(c: Context, l: MapLoop)
    ensures MapRun(c, l).built.Some? && l.entries <= MapRun(c, l).built.value.entries
    decreases |c.tokens| - c.pos
  {
    if c.pos < |c.tokens| {
      var t := c.tokens[c.pos];
      var m := MapStep(c.(pos := c.pos + 1), l, t);
      if m.Proceed? {
        assert l.entries <= m.loop.entries;
        MapAppendsOnly(m.ctx.(done := t == StreamEnd), m.loop);
      }
    }
  }

  /** The guard: in any other state the assembler fails before reading a token or creating a map. */
  lemma MapGuard(c: Context)
    requires c.state != InMapping
    ensures AssembleMap(c) == Assembled(false, c, None)
  {
  }

  /** The tokens that end the map loop. */
  predicate EndsMap(t: Token)
  {
    t == BlockEnd || t == StreamEnd || t == BlockMappingStart || t == FlowMappingStart
  }

  /**
   * The loop reads up to and including the first end-of-block, stream-end or mapping-start
   * token. It succeeds iff that token is an end-of-block or stream-end, and afterwards `done`
   * is set unless it was an end-of-block. With no such token it runs out of input and fails
   * with `done` set.
   */
  lemma {:induction false} MapStopsAtBoundary(c: Context, l: MapLoop)
    requires c.pos <= |c.tokens|
    ensures var r := MapRun(c, l);
            var k := FirstFrom(c.tokens, c.pos, EndsMap);
            && (k == |c.tokens| ==> !r.ok && r.ctx.pos == k && r.ctx.done)
            && (k < |c.tokens| ==>
                  && r.ctx.pos == k + 1
                  && r.ok == (c.tokens[k] == BlockEnd || c.tokens[k] == StreamEnd)
                  && r.ctx.done == (c.tokens[k] != BlockEnd))
    decreases |c.tokens| - c.pos
  {
    if c.pos < |c.tokens| {
      if EndsMap(c.tokens[c.pos]) {
        MapStopsHere(c, l);
      } else {
        var m := MapStep(c.(pos := c.pos + 1), l, c.tokens[c.pos]);
        MapAdvance(c, l);
        var c' := m.ctx.(done := false);
        MapStopsAtBoundary(c', m.loop);
        assert FirstFrom(c.tokens, c'.pos, EndsMap) == FirstFrom(c.tokens, c.pos, EndsMap);
      }
    }
  }

  /** The loop's last token: an end-of-block or stream-end ends it well, a mapping start fails. */
  lemma MapStopsHere(c: Context, l: MapLoop)
    requires c.pos < |c.tokens| && EndsMap(c.tokens[c.pos])
    ensures var r := MapRun(c, l);
            var t := c.tokens[c.pos];
            && r.ctx.pos == c.pos + 1
            && r.ok == (t == BlockEnd || t == StreamEnd)
            && r.ctx.done == (t != BlockEnd)
  {
    var t := c.tokens[c.pos];
    if t == BlockEnd {
      EndsOnBlockEnd(c, l);
    } else if t == StreamEnd {
      assert MapStep(c.(pos := c.pos + 1), l, t) == Proceed(c.(pos := c.pos + 1), l.(empty := false), false);
    } else {
      assert MapStep(c.(pos := c.pos + 1), l, t) == Abort(c.(pos := c.pos + 1, done := true));
    }
  }

  /** A token that does not end the loop hands the loop on to the next token, with `done` clear. */
  lemma MapAdvance(c: Context, l: MapLoop)
    requires c.pos < |c.tokens| && !EndsMap(c.tokens[c.pos])
    ensures var m := MapStep(c.(pos := c.pos + 1), l, c.tokens[c.pos]);
            && m.Proceed? && !m.blockEnd && m.ctx.tokens == c.tokens && m.ctx.pos == c.pos + 1
            && MapRun(c, l) == MapRun(m.ctx.(done := false), m.loop)
  {
  }

  /** A key marker and a key scalar: the scalar becomes the pending key, after MapStep's recovery rule for an older one. */
  lemma ReadsKey(c: Context, l: MapLoop, k: seq<byte>)
    requires c.pos + 2 <= |c.tokens| && c.tokens[c.pos] == Key && c.tokens[c.pos + 1] == Scalar(k)
    ensures MapRun(c, l) == MapRun(c.(pos := c.pos + 2, state := ExpectingKey, done := false), AfterKey(l, k))
  {
    MapAdvance(c, l);
    MapAdvance(c.(pos := c.pos + 1, state := ExpectingKey, done := false), l);
  }

  /** A value marker and a value scalar: an entry pairing the pending key (or null) with a copy of the scalar. */
  lemma ReadsValue(c: Context, l: MapLoop, v: seq<byte>)
    requires c.pos + 2 <= |c.tokens| && c.tokens[c.pos] == Value && c.tokens[c.pos + 1] == Scalar(v)
    ensures MapRun(c, l) == MapRun(c.(pos := c.pos + 2, state := ExpectingValue, value := v, done := false),
                                   MapLoop(None, l.length, false, l.entries + [MapEntry(GenString(l.key, l.length), Copy(v))]))
  {
    MapAdvance(c, l);
    MapAdvance(c.(pos := c.pos + 1, state := ExpectingValue, done := false), l);
  }

  /** A key-value pair with no key pending: one entry pairing copies of the two scalars. */
  lemma ReadsPair(c: Context, l: MapLoop, k: seq<byte>, v: seq<byte>)
    requires l.key == None
    requires c.pos + 4 <= |c.tokens|
    requires c.tokens[c.pos] == Key && c.tokens[c.pos + 1] == Scalar(k)
    requires c.tokens[c.pos + 2] == Value && c.tokens[c.pos + 3] == Scalar(v)
    ensures MapRun(c, l) == MapRun(c.(pos := c.pos + 4, state := ExpectingValue, value := v, done := false),
                                   MapLoop(None, |k|, false, l.entries + [MapEntry(Copy(k), Copy(v))]))
  {
    ReadsKey(c, l, k);
    var c2 := c.(pos := c.pos + 2, state := ExpectingKey, done := false);
    var l2 := AfterKey(l, k);
    assert l2 == MapLoop(Some(k), |k|, true, l.entries);
    ReadsValue(c2, l2, v);
  }

  /** A scalar outside the "expecting a key" state, with no key pending, is stored with a null key and the last key length. */
  lemma ReadsKeylessValue(c: Context, l: MapLoop, v: seq<byte>)
    requires l.key == None && c.state != ExpectingKey
    requires c.pos < |c.tokens| && c.tokens[c.pos] == Scalar(v)
    ensures MapRun(c, l) == MapRun(c.(pos := c.pos + 1, value := v, done := false),
                                   MapLoop(None, l.length, false, l.entries + [MapEntry(GenString(None, l.length), Copy(v))]))
  {
    MapAdvance(c, l);
  }

  /** A value marker alone only changes the state; the pending key stays fresh. */
  lemma ReadsValueMarker(c: Context, l: MapLoop)
    requires c.pos < |c.tokens| && c.tokens[c.pos] == Value
    ensures MapRun(c, l) == MapRun(c.(pos := c.pos + 1, state := ExpectingValue, done := false), l)
  {
    MapAdvance(c, l);
  }

  /** A key with an empty value (`k:`): the key becomes pending and stays fresh. */
  lemma ReadsKeyAlone(c: Context, l: MapLoop, k: seq<byte>)
    requires c.pos + 3 <= |c.tokens|
    requires c.tokens[c.pos] == Key && c.tokens[c.pos + 1] == Scalar(k) && c.tokens[c.pos + 2] == Value
    ensures MapRun(c, l) == MapRun(c.(pos := c.pos + 3, state := ExpectingValue, done := false), AfterKey(l, k))
  {
    ReadsKey(c, l, k);
    var c2 := c.(pos := c.pos + 2, state := ExpectingKey, done := false);
    ReadsValueMarker(c2, AfterKey(l, k));
    assert c2.(pos := c2.pos + 1, state := ExpectingValue, done := false) == c.(pos := c.pos + 3, state := ExpectingValue, done := false);
  }

  /** A token the assembler does not handle only clears the fresh flag. */
  lemma ReadsOther(c: Context, l: MapLoop)
    requires c.pos < |c.tokens| && c.tokens[c.pos] == Other
    ensures MapRun(c, l) == MapRun(c.(pos := c.pos + 1, done := false), l.(empty := false))
  {
    MapAdvance(c, l);
  }

  /** An end-of-block token ends the loop successfully with `done` clear, keeping the entries. */
  lemma EndsOnBlockEnd(c: Context, l: MapLoop)
    requires c.pos < |c.tokens| && c.tokens[c.pos] == BlockEnd
    ensures MapRun(c, l) == Assembled(true, c.(pos := c.pos + 1, done := false), Some(GenMap(l.entries)))
  {
  }

  /** A stream-end token ends the loop successfully with `done` set, keeping the entries. */
  lemma EndsOnStreamEnd(c: Context, l: MapLoop)
    requires c.pos < |c.tokens| && c.tokens[c.pos] == StreamEnd
    ensures MapRun(c, l) == Assembled(true, c.(pos := c.pos + 1, done := true), Some(GenMap(l.entries)))
  {
    assert MapStep(c.(pos := c.pos + 1), l, StreamEnd) == Proceed(c.(pos := c.pos + 1), l.(empty := false), false);
  }

  // ---------------------------------------------------------------------------------------
  // Well-formed input.

  /**
   * The tokens of a flat block mapping start at index `p` of `ts`: `Key, Scalar(k), Value,
   * Scalar(v)` for each pair `(k, v)` of `ps`, then the terminator `term`.
   */
  predicate PairsAt(ts: seq<Token>, p: nat, ps: seq<(seq<byte>, seq<byte>)>, term: Token)
    decreases ps
  {
    if ps == [] then p < |ts| && ts[p] == term
    else
      && p + 4 <= |ts|
      && ts[p] == Key && ts[p + 1] == Scalar(ps[0].0) && ts[p + 2] == Value && ts[p + 3] == Scalar(ps[0].1)
      && PairsAt(ts, p + 4, ps[1..], term)
  }

  /** The entries those pairs should give: each key and value copied with its own length. */
  function PairEntries(ps: seq<(seq<byte>, seq<byte>)>): (es: seq<MapEntry>)
    ensures |es| == |ps|
  {
    if ps == [] then [] else [MapEntry(Copy(ps[0].0), Copy(ps[0].1))] + PairEntries(ps[1..])
  }

  /** The entries of the first pair, then those of the rest. */
  lemma PairEntriesCons(es: seq<MapEntry>, ps: seq<(seq<byte>, seq<byte>)>)
    requires ps != []
    ensures es + PairEntries(ps) == (es + [MapEntry(Copy(ps[0].0), Copy(ps[0].1))]) + PairEntries(ps[1..])
  {
  }

  /**
   * Well-formed input: with no key pending, the pairs followed by an end-of-block or stream-end
   * token append exactly one entry per pair, in order, and the loop stops right after the
   * terminator with `done` set iff it was stream-end.
   */
  lemma {:induction false} MapReadsPairs(c: Context, l: MapLoop, ps: seq<(seq<byte>, seq<byte>)>, term: Token)
    requires l.key == None
    requires term == BlockEnd || term == StreamEnd
    requires PairsAt(c.tokens, c.pos, ps, term)
    ensures var r := MapRun(c, l);
            && r.ok
            && r.built == Some(GenMap(l.entries + PairEntries(ps)))
            && r.ctx.pos == c.pos + 4 * |ps| + 1
            && r.ctx.done == (term == StreamEnd)
    decreases ps
  {
    if ps == [] {
      assert l.entries + PairEntries(ps) == l.entries;
      if term == BlockEnd {
        EndsOnBlockEnd(c, l);
      } else {
        EndsOnStreamEnd(c, l);
      }
    } else {
      var k := ps[0].0;
      var v := ps[0].1;
      ReadsPair(c, l, k, v);
      var c4 := c.(pos := c.pos + 4, state := ExpectingValue, value := v, done := false);
      var l4 := MapLoop(None, |k|, false, l.entries + [MapEntry(Copy(k), Copy(v))]);
      assert PairsAt(c4.tokens, c4.pos, ps[1..], term);
      MapReadsPairs(c4, l4, ps[1..], term);
      PairEntriesCons(l.entries, ps);
      assert |ps[1..]| == |ps| - 1;
    }
  }

  /** A flat block mapping assembled from the "inside a mapping" state gives exactly its pairs. */
  lemma AssemblesFlatMapping(c: Context, ps: seq<(seq<byte>, seq<byte>)>)
    requires c.state == InMapping
    requires PairsAt(c.tokens, c.pos, ps, BlockEnd)
    ensures var r := AssembleMap(c);
            r.ok && r.built == Some(GenMap(PairEntries(ps))) && r.ctx.pos == c.pos + 4 * |ps| + 1 && !r.ctx.done
  {
    MapReadsPairs(c, Start, ps, BlockEnd);
    assert AssembleMap(c) == MapRun(c, Start);
    assert Start.entries + PairEntries(ps) == PairEntries(ps);
  }

  // ---------------------------------------------------------------------------------------
  // Key recovery.

  /**
   * Two keys in a row: the first, still fresh, is committed with a null value, and its recorded
   * key length is the second key's length; the second pairs with the value normally.
   */
  lemma CommitsFreshKey(c: Context, l: MapLoop, k1: seq<byte>, k2: seq<byte>, v: seq<byte>)
    requires l.key == None
    requires c.pos + 7 <= |c.tokens|
    requires c.tokens[c.pos] == Key && c.tokens[c.pos + 1] == Scalar(k1) && c.tokens[c.pos + 2] == Key
    requires c.tokens[c.pos + 3] == Scalar(k2) && c.tokens[c.pos + 4] == Value && c.tokens[c.pos + 5] == Scalar(v)
    requires c.tokens[c.pos + 6] == BlockEnd
    ensures var r := MapRun(c, l);
            && r.ok && r.ctx.pos == c.pos + 7
            && r.built == Some(GenMap(l.entries + [
                 MapEntry(GenString(Some(k1), |k2|), GenString(None, 0)),
                 MapEntry(Copy(k2), Copy(v))]))
  {
    ReadsKey(c, l, k1);
    assert AfterKey(l, k1) == MapLoop(Some(k1), |k1|, true, l.entries);
    CommitsPendingKey(c.(pos := c.pos + 2, state := ExpectingKey, done := false), AfterKey(l, k1), k2, v);
  }

  /**
   * The same recovery for the tokens libyaml gives `k1:` followed by `k2: v`: the value marker
   * after the first key leaves it fresh, so it is committed with a null value and the second
   * key's length when the second key is read.
   */
  lemma CommitsKeyWithoutValue(c: Context, l: MapLoop, k1: seq<byte>, k2: seq<byte>, v: seq<byte>)
    requires l.key == None
    requires c.pos + 8 <= |c.tokens|
    requires c.tokens[c.pos] == Key && c.tokens[c.pos + 1] == Scalar(k1) && c.tokens[c.pos + 2] == Value
    requires c.tokens[c.pos + 3] == Key && c.tokens[c.pos + 4] == Scalar(k2)
    requires c.tokens[c.pos + 5] == Value && c.tokens[c.pos + 6] == Scalar(v) && c.tokens[c.pos + 7] == BlockEnd
    ensures var r := MapRun(c, l);
            && r.ok && r.ctx.pos == c.pos + 8
            && r.built == Some(GenMap(l.entries + [
                 MapEntry(GenString(Some(k1), |k2|), GenString(None, 0)),
                 MapEntry(Copy(k2), Copy(v))]))
  {
    ReadsKeyAlone(c, l, k1);
    assert AfterKey(l, k1) == MapLoop(Some(k1), |k1|, true, l.entries);
    CommitsPendingKey(c.(pos := c.pos + 3, state := ExpectingValue, done := false), AfterKey(l, k1), k2, v);
  }

  /** A fresh pending key, then a key-value pair and an end-of-block: the pending key is committed before the pair. */
  lemma CommitsPendingKey(c: Context, l: MapLoop, k: seq<byte>, v: seq<byte>)
    requires l.key.Some? && l.empty
    requires c.pos + 5 <= |c.tokens|
    requires c.tokens[c.pos] == Key && c.tokens[c.pos + 1] == Scalar(k)
    requires c.tokens[c.pos + 2] == Value && c.tokens[c.pos + 3] == Scalar(v) && c.tokens[c.pos + 4] == BlockEnd
    ensures var r := MapRun(c, l);
            && r.ok && r.ctx.pos == c.pos + 5
            && r.built == Some(GenMap(l.entries + [
                 MapEntry(GenString(l.key, |k|), GenString(None, 0)),
                 MapEntry(Copy(k), Copy(v))]))
  {
    var e1 := MapEntry(GenString(l.key, |k|), GenString(None, 0));
    ReadsKey(c, l, k);
    var c2 := c.(pos := c.pos + 2, state := ExpectingKey, done := false);
    var l2 := AfterKey(l, k);
    assert l2 == MapLoop(Some(k), |k|, true, l.entries + [e1]);
    ReadsValue(c2, l2, v);
    var c4 := c2.(pos := c2.pos + 2, state := ExpectingValue, value := v, done := false);
    var l4 := MapLoop(None, l2.length, false, l2.entries + [MapEntry(GenString(l2.key, l2.length), Copy(v))]);
    EndsOnBlockEnd(c4, l4);
    assert l4.entries == l.entries + [e1, MapEntry(Copy(k), Copy(v))];
  }

  /**
   * A pending key followed by a token the assembler does not handle (an empty flow sequence as
   * its value, say) is no longer fresh: the next key drops it, and no entry records it.
   */
  lemma DropsStaleKey(c: Context, l: MapLoop, k1: seq<byte>, k2: seq<byte>, v: seq<byte>)
    requires l.key == None
    requires c.pos + 8 <= |c.tokens|
    requires c.tokens[c.pos] == Key && c.tokens[c.pos + 1] == Scalar(k1) && c.tokens[c.pos + 2] == Other
    requires c.tokens[c.pos + 3] == Key && c.tokens[c.pos + 4] == Scalar(k2) && c.tokens[c.pos + 5] == Value
    requires c.tokens[c.pos + 6] == Scalar(v) && c.tokens[c.pos + 7] == BlockEnd
    ensures var r := MapRun(c, l);
            r.ok && r.ctx.pos == c.pos + 8 && r.built == Some(GenMap(l.entries + [MapEntry(Copy(k2), Copy(v))]))
  {
    ReadsKey(c, l, k1);
    var c2 := c.(pos := c.pos + 2, state := ExpectingKey, done := false);
    var l2 := AfterKey(l, k1);
    MapAdvance(c2, l2);
    var c3 := c2.(pos := c2.pos + 1, done := false);
    var l3 := l2.(empty := false);
    assert MapRun(c2, l2) == MapRun(c3, l3);
    ReadsKey(c3, l3, k2);
    var c5 := c3.(pos := c3.pos + 2, state := ExpectingKey, done := false);
    var l5 := AfterKey(l3, k2);
    assert l5 == MapLoop(Some(k2), |k2|, true, l.entries);
    ReadsValue(c5, l5, v);
    var c7 := c5.(pos := c5.pos + 2, state := ExpectingValue, value := v, done := false);
    var l7 := MapLoop(None, l5.length, false, l5.entries + [MapEntry(GenString(l5.key, l5.length), Copy(v))]);
    EndsOnBlockEnd(c7, l7);
  }

  /**
   * A second value scalar after a pair (as in a flow sequence `[a, b]` given as a value) finds
   * no pending key: it is stored with a null key and the length of the last key read.
   */
  lemma StoresKeylessValue(c: Context, l: MapLoop, k: seq<byte>, a: seq<byte>, b: seq<byte>)
    requires l.key == None
    requires c.pos + 7 <= |c.tokens|
    requires c.tokens[c.pos] == Key && c.tokens[c.pos + 1] == Scalar(k) && c.tokens[c.pos + 2] == Value
    requires c.tokens[c.pos + 3] == Scalar(a) && c.tokens[c.pos + 4] == Other && c.tokens[c.pos + 5] == Scalar(b)
    requires c.tokens[c.pos + 6] == BlockEnd
    ensures var r := MapRun(c, l);
            && r.ok && r.ctx.pos == c.pos + 7
            && r.built == Some(GenMap(l.entries + [
                 MapEntry(Copy(k), Copy(a)),
                 MapEntry(GenString(None, |k|), Copy(b))]))
  {
    ReadsPair(c, l, k, a);
    var c4 := c.(pos := c.pos + 4, state := ExpectingValue, value := a, done := false);
    var l4 := MapLoop(None, |k|, false, l.entries + [MapEntry(Copy(k), Copy(a))]);
    KeylessTail(c4, l4, b);
    assert l4.entries + [MapEntry(GenString(None, l4.length), Copy(b))]
        == l.entries + [MapEntry(Copy(k), Copy(a)), MapEntry(GenString(None, |k|), Copy(b))];
  }

  /** After a pair: an unhandled token, then a lone scalar, then the end of the block. */
  lemma KeylessTail(c: Context, l: MapLoop, b: seq<byte>)
    requires l.key == None && c.state == ExpectingValue
    requires c.pos + 3 <= |c.tokens|
    requires c.tokens[c.pos] == Other && c.tokens[c.pos + 1] == Scalar(b) && c.tokens[c.pos + 2] == BlockEnd
    ensures MapRun(c, l) == Assembled(true, c.(pos := c.pos + 3, value := b, done := false),
                                      Some(GenMap(l.entries + [MapEntry(GenString(None, l.length), Copy(b))])))
  {
    ReadsOther(c, l);
    var c1 := c.(pos := c.pos + 1, done := false);
    var l1 := l.(empty := false);
    ReadsKeylessValue(c1, l1, b);
    var c2 := c1.(pos := c1.pos + 1, value := b, done := false);
    var l2 := MapLoop(None, l1.length, false, l1.entries + [MapEntry(GenString(None, l1.length), Copy(b))]);
    EndsOnBlockEnd(c2, l2);
  }

  /**
   * Key, value and end-of-block tokens leave the fresh flag as it is; a value scalar, a
   * stream-end and every unhandled token clear it; a key scalar sets it.
   */
  lemma FreshFlag(c: Context, l: MapLoop, t: Token)
    requires !t.BlockMappingStart? && !t.FlowMappingStart?
    ensures MapStep(c, l, t).Proceed?
    ensures t == Key || t == Value || t == BlockEnd ==> MapStep(c, l, t).loop.empty == l.empty
    ensures t.Scalar? ==> MapStep(c, l, t).loop.empty == (c.state == ExpectingKey)
    ensures t == StreamEnd || t == Other ==> !MapStep(c, l, t).loop.empty
  {
  }

  /** A nested mapping where a value was expected fails with `done` set, keeping the entries committed so far. */
  lemma RejectsNestedMapping(c: Context, l: MapLoop)
    requires c.pos < |c.tokens|
    requires c.tokens[c.pos] == BlockMappingStart || c.tokens[c.pos] == FlowMappingStart
    ensures var r := MapRun(c, l);
            !r.ok && r.ctx.done && r.ctx.pos == c.pos + 1 && r.built == Some(GenMap(l.entries))
  {
  }

  /** A key left pending when the block ends is dropped: the map gets no entry for it. */
  lemma DropsTrailingKey(c: Context, l: MapLoop, k: seq<byte>)
    requires l.key == None
    requires c.pos + 3 <= |c.tokens|
    requires c.tokens[c.pos] == Key && c.tokens[c.pos + 1] == Scalar(k) && c.tokens[c.pos + 2] == BlockEnd
    ensures MapRun(c, l) == Assembled(true, c.(pos := c.pos + 3, state := ExpectingKey, done := false), Some(GenMap(l.entries)))
  {
    ReadsKey(c, l, k);
    EndsOnBlockEnd(c.(pos := c.pos + 2, state := ExpectingKey, done := false), AfterKey(l, k));
  }

  /**
   * A block sequence as a value (`k:` then `- a`) opens with tokens the assembler does not
   * handle, so its scalar pairs with the key, and the end-of-block that closes the sequence
   * ends the map loop: the mapping's own end-of-block is left unread.
   */
  lemma EndsInsideSequence(c: Context, l: MapLoop, k: seq<byte>, a: seq<byte>)
    requires l.key == None
    requires c.pos + 7 <= |c.tokens|
    requires c.tokens[c.pos] == Key && c.tokens[c.pos + 1] == Scalar(k) && c.tokens[c.pos + 2] == Value
    requires c.tokens[c.pos + 3] == Other && c.tokens[c.pos + 4] == Other && c.tokens[c.pos + 5] == Scalar(a)
    requires c.tokens[c.pos + 6] == BlockEnd
    ensures MapRun(c, l) == Assembled(true, c.(pos := c.pos + 7, state := ExpectingValue, value := a, done := false),
                                      Some(GenMap(l.entries + [MapEntry(Copy(k), Copy(a))])))
  {
    ReadsKey(c, l, k);
    var c2 := c.(pos := c.pos + 2, state := ExpectingKey, done := false);
    var l2 := AfterKey(l, k);
    assert l2 == MapLoop(Some(k), |k|, true, l.entries);
    MapAdvance(c2, l2);
    var c3 := c2.(pos := c2.pos + 1, state := ExpectingValue, done := false);
    assert MapRun(c2, l2) == MapRun(c3, l2);
    UnhandledThenValue(c3, l2, a);
  }

  /** Two unhandled tokens, a value scalar and an end-of-block: one entry for the pending key, and the loop ends. */
  lemma UnhandledThenValue(c: Context, l: MapLoop, a: seq<byte>)
    requires c.state == ExpectingValue && c.pos + 4 <= |c.tokens|
    requires c.tokens[c.pos] == Other && c.tokens[c.pos + 1] == Other && c.tokens[c.pos + 2] == Scalar(a)
    requires c.tokens[c.pos + 3] == BlockEnd
    ensures MapRun(c, l) == Assembled(true, c.(pos := c.pos + 4, value := a, done := false),
                                      Some(GenMap(l.entries + [MapEntry(GenString(l.key, l.length), Copy(a))])))
  {
    ReadsOther(c, l);
    var c1 := c.(pos := c.pos + 1, done := false);
    var l1 := l.(empty := false);
    ReadsOther(c1, l1);
    var c2 := c1.(pos := c1.pos + 1, done := false);
    MapAdvance(c2, l1);
    var c3 := c2.(pos := c2.pos + 1, value := a, done := false);
    var l3 := MapLoop(None, l.length, false, l.entries + [MapEntry(GenString(l.key, l.length), Copy(a))]);
    assert MapRun(c2, l1) == MapRun(c3, l3);
    EndsOnBlockEnd(c3, l3);
  }
}
