/**
 * The list assembler (parse_yaml_list) as a transition function over tokens, and what it
 * collects from the tokens it reads.
 */
module ListAssembly {
  import opened Wrappers
  import opened Tokens
  import opened Containers

  /** One token's effect: go on (saying whether it was an end-of-block token), or fail. */
  datatype ListMove = Continue(ctx: Context, entries: seq<GenString>, blockEnd: bool) | Fail(ctx: Context)

  /**
   * The transition table of the list loop for token `t`, from the context `c` in which `t` has
   * already been read: a key or a block mapping start fails, a value marker sets the state, every
   * scalar becomes the current span and is appended as a copy, and every other token is skipped.
   */
  function ListStep(c: Context, es: seq<GenString>, t: Token): (m: ListMove)
    ensures m.ctx.tokens == c.tokens && m.ctx.pos == c.pos
  {
    match t
    case Key => Fail(c.(done := true))
    case Value => Continue(c.(state := ExpectingValue), es, false)
    case Scalar(text) => Continue(c.(value := text), es + [Copy(text)], false)
    case BlockMappingStart => Fail(c.(done := true))
    case BlockEnd => Continue(c, es, true)
    case _ => Continue(c, es, false)
  }

  /**
   * The list loop from context `c` with elements `es`: read a token (a failed scan sets `done`
   * and fails), apply ListStep, set `done` iff the token ended the stream, and go on unless
   * `done` is set or the block ended.
   */
  function ListRun(c: Context, es: seq<GenString>): (r: Assembled<GenList>)
    decreases |c.tokens| - c.pos
  {
    if c.pos >= |c.tokens| then Assembled(false, c.(done := true), Some(GenList(es)))
    else
      var t := c.tokens[c.pos];
      match ListStep(c.(pos := c.pos + 1), es, t)
      case Fail(c') => Assembled(false, c', Some(GenList(es)))
      case Continue(c', es', blockEnd) =>
        var c'' := c'.(done := t == StreamEnd);
        if !c''.done && !blockEnd then ListRun(c'', es')
        else Assembled(true, c'', Some(GenList(es')))
  }

  /**
   * parse_yaml_list: outside the "inside a sequence" state it fails at once, consuming nothing
   * and leaving the slot alone; otherwise it runs the list loop from an empty list.
   */
  function AssembleList(c: Context): Assembled<GenList>
  {
    if c.state != InSequence then Assembled(false, c, None) else ListRun(c, [])
  }

  /** The guard: in any other state the assembler fails before reading a token or creating a list. */
  lemma ListGuard(c: Context)
    requires c.state != InSequence
    ensures AssembleList(c) == Assembled(false, c, None)
  {
  }

  /** The tokens that end the list loop. */
  predicate EndsList(t: Token)
  {
    t == Key || t == BlockMappingStart || t == BlockEnd || t == StreamEnd
  }

  /** What one token contributes to the list: a copy of a scalar, nothing for any other token. */
  function Picked(t: Token): seq<GenString>
  {
    if t.Scalar? then [Copy(t.text)] else []
  }

  /** Copies of the scalars among `ts`, in order. */
  function Scalars(ts: seq<Token>): seq<GenString>
  {
    if ts == [] then [] else Picked(ts[0]) + Scalars(ts[1..])
  }

  /** The context after the list loop reads `t`, a token that does not end it. */
  function ListNext(c: Context, t: Token): Context
  {
    c.(pos := c.pos + 1, value := if t.Scalar? then t.text else c.value,
       state := if t == Value then ExpectingValue else c.state, done := false)
  }

  /** The state after reading `ts` from state `s`: a value marker among them sets the "value" state. */
  function StateAfter(s: ParserState, ts: seq<Token>): ParserState
  {
    if Value in ts then ExpectingValue else s
  }

  /**
   * The loop reads up to and including the first key, mapping-start, end-of-block or stream-end
   * token. It succeeds iff that token is an end-of-block or stream-end, and afterwards `done` is
   * set unless it was an end-of-block; a key or a mapping start fails with `done` set. With no
   * such token it runs out of input and fails with `done` set.
   */
  lemma {:induction false} ListStopsAtBoundary(c: Context, es: seq<GenString>)
    requires c.pos <= |c.tokens|
    ensures var r := ListRun(c, es);
            var k := FirstFrom(c.tokens, c.pos, EndsList);
            && (k == |c.tokens| ==> !r.ok && r.ctx.pos == k && r.ctx.done)
            && (k < |c.tokens| ==>
                  && r.ctx.pos == k + 1
                  && r.ok == (c.tokens[k] == BlockEnd || c.tokens[k] == StreamEnd)
                  && r.ctx.done == (c.tokens[k] != BlockEnd))
    decreases |c.tokens| - c.pos
  {
    if c.pos < |c.tokens| {
      if EndsList(c.tokens[c.pos]) {
        ListStopsHere(c, es);
      } else {
        var t := c.tokens[c.pos];
        ListAdvance(c, es);
        ListStopsAtBoundary(ListNext(c, t), es + Picked(t));
      }
    }
  }

  /** Up to that token, every scalar is appended as a copy, in order, whatever the state, and nothing else is. */
  lemma {:induction false} ListCollects(c: Context, es: seq<GenString>)
    requires c.pos <= |c.tokens|
    ensures ListRun(c, es).built == Some(GenList(es + Scalars(c.tokens[c.pos..FirstFrom(c.tokens, c.pos, EndsList)])))
    decreases |c.tokens| - c.pos
  {
    var ts := c.tokens;
    var k := FirstFrom(ts, c.pos, EndsList);
    if c.pos == |ts| {
      assert es + Scalars(ts[c.pos..k]) == es;
    } else if EndsList(ts[c.pos]) {
      assert es + Scalars(ts[c.pos..k]) == es;
      ListStopsHere(c, es);
    } else {
      var t := ts[c.pos];
      ListAdvance(c, es);
      ListCollects(ListNext(c, t), es + Picked(t));
      ScalarsCons(ts, c.pos, k);
      assert es + (Picked(t) + Scalars(ts[c.pos + 1..k])) == (es + Picked(t)) + Scalars(ts[c.pos + 1..k]);
    }
  }

  /** The state ends as "value" iff a value marker was read before that token (or it was so before). */
  lemma {:induction false} ListState(c: Context, es: seq<GenString>)
    requires c.pos <= |c.tokens|
    ensures ListRun(c, es).ctx.state == StateAfter(c.state, c.tokens[c.pos..FirstFrom(c.tokens, c.pos, EndsList)])
    decreases |c.tokens| - c.pos
  {
    var ts := c.tokens;
    var k := FirstFrom(ts, c.pos, EndsList);
    if c.pos == |ts| {
      assert ts[c.pos..k] == [];
    } else if EndsList(ts[c.pos]) {
      assert ts[c.pos..k] == [];
      ListStopsHere(c, es);
    } else {
      var t := ts[c.pos];
      ListAdvance(c, es);
      ListState(ListNext(c, t), es + Picked(t));
      SliceCons(ts, c.pos, k);
      assert (Value in ts[c.pos..k]) == (t == Value || Value in ts[c.pos + 1..k]);
    }
  }

  /** The scalars of a slice that is not empty: those of its first token, then those of the rest. */
  lemma ScalarsCons(ts: seq<Token>, i: nat, k: nat)
    requires i < k <= |ts|
    ensures Scalars(ts[i..k]) == Picked(ts[i]) + Scalars(ts[i + 1..k])
  {
    SliceCons(ts, i, k);
  }

  /** The loop's last token: an end-of-block or stream-end ends it well, a key or mapping start fails. */
  lemma ListStopsHere(c: Context, es: seq<GenString>)
    requires c.pos < |c.tokens| && EndsList(c.tokens[c.pos])
    ensures var r := ListRun(c, es);
            var t := c.tokens[c.pos];
            && r.built == Some(GenList(es))
            && r.ctx.state == c.state
            && r.ctx.pos == c.pos + 1
            && r.ok == (t == BlockEnd || t == StreamEnd)
            && r.ctx.done == (t != BlockEnd)
  {
    var t := c.tokens[c.pos];
    var c1 := c.(pos := c.pos + 1);
    if t == BlockEnd {
      assert ListStep(c1, es, t) == Continue(c1, es, true);
    } else if t == StreamEnd {
      assert ListStep(c1, es, t) == Continue(c1, es, false);
    } else {
      assert ListStep(c1, es, t) == Fail(c1.(done := true));
    }
  }

  /** A token that does not end the loop hands the loop on to the next token, with `done` clear. */
  lemma ListAdvance(c: Context, es: seq<GenString>)
    requires c.pos < |c.tokens| && !EndsList(c.tokens[c.pos])
    ensures ListRun(c, es) == ListRun(ListNext(c, c.tokens[c.pos]), es + Picked(c.tokens[c.pos]))
  {
    var t := c.tokens[c.pos];
    var m := ListStep(c.(pos := c.pos + 1), es, t);
    assert m == Continue(ListNext(c, t).(done := m.ctx.done), es + Picked(t), false);
  }

  /**
   * A block sequence of scalars, as the tokenizer produces it (an entry marker before each
   * scalar) and closed by an end-of-block, gives exactly those scalars, copied, in order.
   */
  lemma AssemblesBlockSequence(c: Context, a: seq<byte>, b: seq<byte>)
    requires c.state == InSequence && c.pos + 5 <= |c.tokens|
    requires c.tokens[c.pos] == Other && c.tokens[c.pos + 1] == Scalar(a)
    requires c.tokens[c.pos + 2] == Other && c.tokens[c.pos + 3] == Scalar(b) && c.tokens[c.pos + 4] == BlockEnd
    ensures var r := AssembleList(c);
            && r.ok && !r.ctx.done && r.ctx.pos == c.pos + 5 && r.ctx.value == b
            && r.built == Some(GenList([Copy(a), Copy(b)]))
  {
    var p := c.pos;
    ReadsEntry(c, [], a);
    var c2 := c.(pos := p + 2, value := a, done := false);
    assert [] + [Copy(a)] == [Copy(a)];
    ReadsEntry(c2, [Copy(a)], b);
    var c4 := c.(pos := p + 4, value := b, done := false);
    assert [Copy(a)] + [Copy(b)] == [Copy(a), Copy(b)];
    ListStopsHere(c4, [Copy(a), Copy(b)]);
  }

  /** An entry marker and a scalar: the scalar becomes the current span and is appended, copied. */
  lemma ReadsEntry(c: Context, es: seq<GenString>, a: seq<byte>)
    requires c.pos + 2 <= |c.tokens| && c.tokens[c.pos] == Other && c.tokens[c.pos + 1] == Scalar(a)
    ensures ListRun(c, es) == ListRun(c.(pos := c.pos + 2, value := a, done := false), es + [Copy(a)])
  {
    ListAdvance(c, es);
    var c1 := ListNext(c, Other);
    assert es + Picked(Other) == es;
    ListAdvance(c1, es);
  }

  /** A key inside a sequence fails with `done` set, keeping the elements appended so far. */
  lemma RejectsKey(c: Context, es: seq<GenString>)
    requires c.pos < |c.tokens| && c.tokens[c.pos] == Key
    ensures var r := ListRun(c, es);
            !r.ok && r.ctx.done && r.ctx.pos == c.pos + 1 && r.built == Some(GenList(es))
  {
    ListStopsHere(c, es);
  }
}
