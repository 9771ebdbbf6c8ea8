/**
 * The token stream the materialiser consumes and the parser context it threads through
 * one parsing session (gen_parser_t).
 */
module Tokens {

  /** One byte of a scalar's text. */
  newtype byte = b: int | 0 <= b < 256

  /**
   * The token kinds the materialiser tells apart. Every other kind the tokenizer produces
   * (stream and document markers, sequence markers, flow entries, anchors, tags, ...) is `Other`.
   */
  datatype Token =
    | Key
    | Value
    | Scalar(text: seq<byte>)
    | BlockMappingStart
    | FlowMappingStart
    | BlockEnd
    | StreamEnd
    | Other

  /** The structural state of the parser context. */
  datatype ParserState = InMapping | ExpectingKey | ExpectingValue | InSequence

  /**
   * A snapshot of the parser context: the token stream with its cursor (the tokenizer session),
   * the current text span, the structural state and the termination flag.
   * Reading a token at or past the end of `tokens` is a failed scan.
   */
  datatype Context = Context(tokens: seq<Token>, pos: nat, value: seq<byte>, state: ParserState, done: bool)

  /** The first index at or after `i` whose token satisfies `stop`, or |ts| when there is none. */
  function FirstFrom(ts: seq<Token>, i: nat, stop: Token -> bool): (k: nat)
    requires i <= |ts|
    ensures i <= k <= |ts|
    ensures forall j :: i <= j < k ==> !stop(ts[j])
    ensures k < |ts| ==> stop(ts[k])
    decreases |ts| - i
  {
    if i == |ts| || stop(ts[i]) then i else FirstFrom(ts, i + 1, stop)
  }

  /** A slice that is not empty is its first token followed by the rest. */
  lemma SliceCons(ts: seq<Token>, i: nat, k: nat)
    requires i < k <= |ts|
    ensures ts[i..k] == [ts[i]] + ts[i + 1..k]
    ensures ts[i..k][0] == ts[i] && ts[i..k][1..] == ts[i + 1..k]
  {
  }
}
