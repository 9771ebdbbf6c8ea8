/**
 * Skipping an unknown mapping (parse_yaml_skip_unknown_mapping): a depth counter over tokens.
 */
module SkipUnknown {
  import opened Tokens

  /** What the skip loop leaves behind: its return value and the context. */
  datatype Skipped = Skipped(ok: bool, ctx: Context)

  /** How one token changes the nesting depth: a block mapping start opens, an end-of-block closes. */
  function Delta(t: Token): int
  {
    if t == BlockMappingStart then 1 else if t == BlockEnd then -1 else 0
  }

  /** The net change of depth over the tokens `ts[i..j]`. */
  function Balance(ts: seq<Token>, i: nat, j: nat): int
    requires i <= j <= |ts|
    decreases j - i
  {
    if i == j then 0 else Delta(ts[i]) + Balance(ts, i + 1, j)
  }

  /**
   * The skip loop from context `c` at depth `depth`: read a token (a failed scan sets `done` and
   * fails), adjust the depth, set `done` on a stream-end (it is never cleared here), and go on
   * while `done` is clear and the depth is not zero.
   */
  function SkipRun(c: Context, depth: nat): (r: Skipped)
    requires depth >= 1
    ensures r.ctx.tokens == c.tokens && c.pos <= r.ctx.pos
    ensures c.pos <= |c.tokens| ==> r.ctx.pos <= |c.tokens|
    decreases |c.tokens| - c.pos
  {
    if c.pos >= |c.tokens| then Skipped(false, c.(done := true))
    else
      var t := c.tokens[c.pos];
      var depth' := depth + Delta(t);
      var c' := c.(pos := c.pos + 1, done := c.done || t == StreamEnd);
      if !c'.done && depth' != 0 then SkipRun(c', depth') else Skipped(true, c')
  }

  /** parse_yaml_skip_unknown_mapping: the skip loop from depth one. */
  function SkipMapping(c: Context): Skipped
  {
    SkipRun(c, 1)
  }

  /** Still inside the mapping after reading `ts[i..j]` from depth `depth`: depth above zero, no stream-end. */
  predicate Open(depth: nat, ts: seq<Token>, i: nat, j: nat)
    requires i <= j <= |ts|
  {
    depth + Balance(ts, i, j) >= 1 && forall k :: i <= k < j ==> ts[k] != StreamEnd
  }

  /**
   * From depth one or more, with `done` clear, a successful loop has read at least one token,
   * and `done` is set iff the last token it read was a stream-end.
   */
  lemma {:induction false} SkipStops(c: Context, depth: nat)
    requires depth >= 1 && !c.done && c.pos <= |c.tokens|
    ensures var r := SkipRun(c, depth);
            r.ok ==> c.pos < r.ctx.pos <= |c.tokens| && r.ctx.done == (c.tokens[r.ctx.pos - 1] == StreamEnd)
    decreases |c.tokens| - c.pos
  {
    var ts := c.tokens;
    if c.pos < |ts| {
      var t := ts[c.pos];
      if t != StreamEnd && depth + Delta(t) != 0 {
        SkipStep(c, depth);
        SkipStops(c.(pos := c.pos + 1), depth + Delta(t));
      } else {
        assert SkipRun(c, depth) == Skipped(true, c.(pos := c.pos + 1, done := t == StreamEnd));
      }
    }
  }

  /**
   * A successful loop that did not stop at a stream-end stopped at the end-of-block that brought
   * the depth back to zero.
   */
  lemma {:induction false} SkipCloses(c: Context, depth: nat)
    requires depth >= 1 && !c.done && c.pos <= |c.tokens|
    ensures var r := SkipRun(c, depth);
            r.ok && !r.ctx.done ==>
              && c.pos < r.ctx.pos <= |c.tokens|
              && c.tokens[r.ctx.pos - 1] == BlockEnd && depth + Balance(c.tokens, c.pos, r.ctx.pos) == 0
    decreases |c.tokens| - c.pos
  {
    var ts := c.tokens;
    if c.pos < |ts| {
      var t := ts[c.pos];
      if t != StreamEnd && depth + Delta(t) != 0 {
        SkipStep(c, depth);
        SkipCloses(c.(pos := c.pos + 1), depth + Delta(t));
      } else if t != StreamEnd {
        assert SkipRun(c, depth) == Skipped(true, c.(pos := c.pos + 1, done := false));
        assert Balance(ts, c.pos, c.pos + 1) == Delta(t);
      } else {
        assert SkipRun(c, depth).ctx.done;
      }
    }
  }

  /** A loop that fails has run out of input with `done` set, the depth still open and no stream-end read. */
  lemma {:induction false} SkipRunsOut(c: Context, depth: nat)
    requires depth >= 1 && !c.done && c.pos <= |c.tokens|
    ensures var r := SkipRun(c, depth);
            !r.ok ==> r.ctx.pos == |c.tokens| && r.ctx.done && Open(depth, c.tokens, c.pos, |c.tokens|)
    decreases |c.tokens| - c.pos
  {
    var ts := c.tokens;
    if c.pos < |ts| {
      var t := ts[c.pos];
      if t != StreamEnd && depth + Delta(t) != 0 {
        SkipStep(c, depth);
        SkipRunsOut(c.(pos := c.pos + 1), depth + Delta(t));
      }
    }
  }

  /**
   * Before its last token, every prefix the loop reads leaves the depth at one or more with no
   * stream-end: the depth never reaches zero early and never goes below zero.
   */
  lemma {:induction false} SkipStaysOpen(c: Context, depth: nat)
    requires depth >= 1 && !c.done && c.pos <= |c.tokens|
    ensures forall j :: c.pos <= j < SkipRun(c, depth).ctx.pos ==> Open(depth, c.tokens, c.pos, j)
    decreases |c.tokens| - c.pos
  {
    var ts := c.tokens;
    if c.pos < |ts| {
      var t := ts[c.pos];
      assert Open(depth, ts, c.pos, c.pos);
      if t != StreamEnd && depth + Delta(t) != 0 {
        var c' := c.(pos := c.pos + 1);
        SkipStep(c, depth);
        SkipStaysOpen(c', depth + Delta(t));
        forall j | c'.pos <= j < SkipRun(c, depth).ctx.pos
          ensures Open(depth, ts, c.pos, j)
        {
          assert Open(depth + Delta(t), ts, c'.pos, j);
        }
      }
    }
  }

  /** A token that neither ends the stream nor closes the outermost mapping hands the loop on at the new depth. */
  lemma SkipStep(c: Context, depth: nat)
    requires depth >= 1 && !c.done && c.pos < |c.tokens|
    requires c.tokens[c.pos] != StreamEnd && depth + Delta(c.tokens[c.pos]) != 0
    ensures SkipRun(c, depth) == SkipRun(c.(pos := c.pos + 1), depth + Delta(c.tokens[c.pos]))
  {
  }

  /**
   * A token read with `done` already set, a stream-end, or one that brings the depth to zero is
   * the last one. In particular with `done` set on entry the loop stops after one token whatever
   * it is: the flag is only ever set here, never cleared, and the loop tests it after each token.
   */
  lemma SkipLast(c: Context, depth: nat)
    requires depth >= 1 && c.pos < |c.tokens|
    requires c.done || c.tokens[c.pos] == StreamEnd || depth + Delta(c.tokens[c.pos]) == 0
    ensures SkipRun(c, depth) == Skipped(true, c.(pos := c.pos + 1, done := c.done || c.tokens[c.pos] == StreamEnd))
  {
  }

  /** A nested mapping inside the skipped one is skipped whole, with its closing end-of-block. */
  lemma SkipsNested(c: Context, k: seq<byte>, v: seq<byte>)
    requires !c.done && c.pos + 7 <= |c.tokens|
    requires c.tokens[c.pos] == BlockMappingStart && c.tokens[c.pos + 1] == Key && c.tokens[c.pos + 2] == Scalar(k)
    requires c.tokens[c.pos + 3] == Value && c.tokens[c.pos + 4] == Scalar(v)
    requires c.tokens[c.pos + 5] == BlockEnd && c.tokens[c.pos + 6] == BlockEnd
    ensures SkipMapping(c) == Skipped(true, c.(pos := c.pos + 7))
  {
    var p := c.pos;
    SkipStep(c, 1);
    SkipsPair(c.(pos := p + 1), 2, k, v);
    SkipStep(c.(pos := p + 5), 2);
  }

  /** A key/value pair of scalars leaves the depth as it is. */
  lemma SkipsPair(c: Context, depth: nat, k: seq<byte>, v: seq<byte>)
    requires depth >= 1 && !c.done && c.pos + 4 <= |c.tokens|
    requires c.tokens[c.pos] == Key && c.tokens[c.pos + 1] == Scalar(k)
    requires c.tokens[c.pos + 2] == Value && c.tokens[c.pos + 3] == Scalar(v)
    ensures SkipRun(c, depth) == SkipRun(c.(pos := c.pos + 4), depth)
  {
    var p := c.pos;
    SkipStep(c, depth);
    SkipStep(c.(pos := p + 1), depth);
    SkipStep(c.(pos := p + 2), depth);
    SkipStep(c.(pos := p + 3), depth);
  }

  /**
   * The loop counts every end-of-block, also the one that closes a block sequence, whose start
   * is a token it does not count: skipping `k:` then `- a` stops at the sequence's end-of-block,
   * one level early, and leaves the mapping's own end-of-block unread.
   */
  lemma StopsOneLevelEarly(c: Context, k: seq<byte>, a: seq<byte>)
    requires !c.done && c.pos + 7 <= |c.tokens|
    requires c.tokens[c.pos] == Key && c.tokens[c.pos + 1] == Scalar(k) && c.tokens[c.pos + 2] == Value
    requires c.tokens[c.pos + 3] == Other && c.tokens[c.pos + 4] == Other && c.tokens[c.pos + 5] == Scalar(a)
    requires c.tokens[c.pos + 6] == BlockEnd
    ensures SkipMapping(c) == Skipped(true, c.(pos := c.pos + 7))
  {
    SkipsNeutral(c, 1, 6);
    SkipLast(c.(pos := c.pos + 6), 1);
  }

  /** Tokens that neither open nor close a mapping nor end the stream leave the depth as it is. */
  lemma {:induction false} SkipsNeutral(c: Context, depth: nat, n: nat)
    requires depth >= 1 && !c.done && c.pos + n <= |c.tokens|
    requires forall k :: c.pos <= k < c.pos + n ==> c.tokens[k] != StreamEnd && Delta(c.tokens[k]) == 0
    ensures SkipRun(c, depth) == SkipRun(c.(pos := c.pos + n), depth)
    decreases n
  {
    if n > 0 {
      SkipStep(c, depth);
      SkipsNeutral(c.(pos := c.pos + 1), depth, n - 1);
    }
  }
}
