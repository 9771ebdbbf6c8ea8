/**
 * The entry point parse_yaml: scan to the first block mapping, hand the session to a
 * caller-supplied builder, and on failure hand what the builder left in the out-slot to a
 * caller-supplied teardown.
 */
module Driver {
  import opened Wrappers
  import opened Tokens
  import opened Containers
  import opened MapAssembly
  import opened YamlParser

  /** What a builder (parser_func) leaves behind: its return value and what it stored in the out-slot. */
  datatype Built<T> = Built(ok: bool, ret: Option<T>)

  /** What parse_yaml leaves behind: its return value, the out-slot, and how often it called the teardown. */
  datatype Driven<T> = Driven(ok: bool, ret: Option<T>, teardowns: nat)

  /** The tokens that end the initial scan. */
  predicate EndsScan(t: Token)
  {
    t == BlockMappingStart || t == StreamEnd
  }

  /** The session handed to the builder: just past the token at `k`, no span, inside a mapping, not done. */
  function Session(tokens: seq<Token>, k: nat): Context
  {
    Context(tokens, k + 1, [], InMapping, false)
  }

  /**
   * parse_yaml as a function of the token stream, the builder and the teardown (free_func, which
   * gets the out-slot's content and gives back what it leaves there).
   */
  function Drive<T>(tokens: seq<Token>, build: Context -> Built<T>, teardown: T -> Option<T>): (d: Driven<T>)
    ensures d.teardowns <= 1
    ensures d.ok ==> d.teardowns == 0
  {
    var k := FirstFrom(tokens, 0, EndsScan);
    if k == |tokens| || tokens[k] == StreamEnd then Driven(false, None, 0)
    else
      var b := build(Session(tokens, k));
      if b.ok then Driven(true, b.ret, 0)
      else if b.ret.Some? then Driven(false, teardown(b.ret.value), 1)
      else Driven(false, None, 0)
  }

  /**
   * parse_yaml: empties the out-slot, scans tokens until a block mapping starts or the stream
   * ends, fails when the scan fails or the stream ended first, and otherwise runs the builder on
   * a fresh session positioned just past the mapping start. When the builder fails and left
   * something in the slot, the teardown is called on it, once.
   */
  method ParseYaml<T>(tokens: seq<Token>, ret: Slot<T>, build: Context -> Built<T>, teardown: T -> Option<T>)
      returns (ok: bool, teardowns: nat)
    modifies ret
    ensures Driven(ok, ret.content, teardowns) == Drive(tokens, build, teardown)
  {
    ret.content := None;
    teardowns := 0;
    var s := new Parser(tokens);
    var done := false;
    var found := false;
    while !done && !found
      invariant s.Snapshot() == Context(tokens, s.pos, [], InMapping, false)
      invariant s.pos <= |tokens|
      invariant !done && !found ==> FirstFrom(tokens, 0, EndsScan) == FirstFrom(tokens, s.pos, EndsScan)
      invariant done || found ==> 1 <= s.pos && FirstFrom(tokens, 0, EndsScan) == s.pos - 1
      invariant found ==> !done && tokens[s.pos - 1] == BlockMappingStart
      invariant done ==> tokens[s.pos - 1] == StreamEnd
      invariant ret.content == None
      decreases |tokens| - s.pos
    {
      var token := s.Scan();
      if token.None? {
        return false, 0;
      }
      if token.value == BlockMappingStart {
        found := true;
      }
      if token.value == StreamEnd {
        done := true;
      }
    }
    if !found {
      return false, 0;
    }
    var b := build(s.Snapshot());
    ret.content := b.ret;
    if !b.ok {
      if ret.content.Some? {
        ret.content := teardown(ret.content.value);
        teardowns := 1;
      }
      return false, teardowns;
    }
    return true, 0;
  }

  /** A stream-end before any block mapping start: "no data found", and the builder never runs. */
  lemma NoDataFound<T>(tokens: seq<Token>, build: Context -> Built<T>, teardown: T -> Option<T>, i: nat)
    requires i < |tokens| && tokens[i] == StreamEnd
    requires forall j :: 0 <= j < i ==> tokens[j] != BlockMappingStart
    ensures Drive(tokens, build, teardown) == Driven(false, None, 0)
  {
    var k := FirstFrom(tokens, 0, EndsScan);
    assert k <= i;
  }

  /** A stream with neither a block mapping start nor a stream-end: the scan fails, and the builder never runs. */
  lemma ScanFails<T>(tokens: seq<Token>, build: Context -> Built<T>, teardown: T -> Option<T>)
    requires forall j :: 0 <= j < |tokens| ==> !EndsScan(tokens[j])
    ensures Drive(tokens, build, teardown) == Driven(false, None, 0)
  {
  }

  /**
   * The first block mapping start, with no stream-end before it: the builder gets a fresh
   * session just past it; its success is the result; on failure what it left in the slot, if
   * anything, goes to the teardown exactly once.
   */
  lemma RunsBuilder<T>(tokens: seq<Token>, build: Context -> Built<T>, teardown: T -> Option<T>, k: nat)
    requires k < |tokens| && tokens[k] == BlockMappingStart
    requires forall j :: 0 <= j < k ==> !EndsScan(tokens[j])
    ensures var b := build(Context(tokens, k + 1, [], InMapping, false));
            var d := Drive(tokens, build, teardown);
            && d.ok == b.ok
            && (b.ok ==> d.ret == b.ret && d.teardowns == 0)
            && (!b.ok && b.ret.Some? ==> d.ret == teardown(b.ret.value) && d.teardowns == 1)
            && (!b.ok && b.ret.None? ==> d.ret == None && d.teardowns == 0)
  {
    assert FirstFrom(tokens, 0, EndsScan) == k;
  }

  /** The builder for a document whose top level is a map: parse_yaml_map on the session. */
  function MapBuilder(c: Context): Built<GenMap>
  {
    var r := AssembleMap(c);
    Built(r.ok, r.built)
  }

  /** A document holding one flat block mapping parses to exactly its pairs, in order, with no teardown. */
  lemma ParsesFlatDocument(tokens: seq<Token>, teardown: GenMap -> Option<GenMap>, k: nat, ps: seq<(seq<byte>, seq<byte>)>)
    requires k < |tokens| && tokens[k] == BlockMappingStart
    requires forall j :: 0 <= j < k ==> !EndsScan(tokens[j])
    requires PairsAt(tokens, k + 1, ps, BlockEnd)
    ensures Drive(tokens, MapBuilder, teardown) == Driven(true, Some(GenMap(PairEntries(ps))), 0)
  {
    RunsBuilder(tokens, MapBuilder, teardown, k);
    AssemblesFlatMapping(Context(tokens, k + 1, [], InMapping, false), ps);
  }

  /**
   * A nested mapping after one pair fails the map builder, which has already stored the map
   * holding that pair; parse_yaml hands that partial map to the teardown, once.
   */
  lemma TearsDownPartialMap(tokens: seq<Token>, teardown: GenMap -> Option<GenMap>, k: nat, a: seq<byte>, b: seq<byte>)
    requires k + 7 <= |tokens|
    requires tokens[k] == BlockMappingStart && tokens[k + 1] == Key && tokens[k + 2] == Scalar(a)
    requires tokens[k + 3] == Value && tokens[k + 4] == Scalar(b) && tokens[k + 5] == Value
    requires tokens[k + 6] == BlockMappingStart
    requires forall j :: 0 <= j < k ==> !EndsScan(tokens[j])
    ensures Drive(tokens, MapBuilder, teardown) == Driven(false, teardown(GenMap([MapEntry(Copy(a), Copy(b))])), 1)
  {
    var c := Context(tokens, k + 1, [], InMapping, false);
    ReadsPair(c, Start, a, b);
    var c4 := c.(pos := c.pos + 4, state := ExpectingValue, value := b, done := false);
    var l4 := MapLoop(None, |a|, false, [] + [MapEntry(Copy(a), Copy(b))]);
    MapAdvance(c4, l4);
    var c5 := c4.(pos := c4.pos + 1, done := false);
    assert MapRun(c4, l4) == MapRun(c5, l4);
    RejectsNestedMapping(c5, l4);
    assert [] + [MapEntry(Copy(a), Copy(b))] == [MapEntry(Copy(a), Copy(b))];
    RunsBuilder(tokens, MapBuilder, teardown, k);
  }
}
