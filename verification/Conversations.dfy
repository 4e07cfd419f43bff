/** Conversations of the agent loops: rounds of an assistant message with tool calls and their results. */
module Conversations {
  import opened Wrappers

  /** A tool call as it is put into the conversation. */
  datatype Call = Call(id: string, name: string, arguments: string)

  datatype Message =
    | System
    | User(text: string)
    | Assistant(content: Option<string>, calls: seq<Call>)
    | Tool(callId: string, output: string)

  datatype Execution = Execution(callId: string, name: string, output: string)

  /** One round: an assistant message with its calls, and their results in the same order. */
  datatype Block = Block(content: Option<string>, calls: seq<Call>, outputs: seq<string>)

  predicate Complete(b: Block) {
    |b.calls| >= 1 && |b.outputs| == |b.calls|
  }

  predicate AllComplete(blocks: seq<Block>) {
    forall i :: 0 <= i < |blocks| ==> Complete(blocks[i])
  }

  function Results(calls: seq<Call>, outputs: seq<string>): (messages: seq<Message>)
    requires |outputs| == |calls|
    ensures |messages| == |calls|
  {
    seq(|calls|, i requires 0 <= i < |calls| => Tool(calls[i].id, outputs[i]))
  }

  function Executed(calls: seq<Call>, outputs: seq<string>): (executions: seq<Execution>)
    requires |outputs| == |calls|
    ensures |executions| == |calls|
  {
    seq(|calls|, i requires 0 <= i < |calls| => Execution(calls[i].id, calls[i].name, outputs[i]))
  }

  /** The opening messages followed by the rounds. */
  function Conversation(opening: seq<Message>, blocks: seq<Block>): seq<Message>
    requires AllComplete(blocks)
  {
    if blocks == [] then opening
    else
      var b := blocks[|blocks| - 1];
      Conversation(opening, blocks[..|blocks| - 1]) + [Assistant(b.content, b.calls)] + Results(b.calls, b.outputs)
  }

  function Executions(blocks: seq<Block>): seq<Execution>
    requires AllComplete(blocks)
  {
    if blocks == [] then []
    else
      var b := blocks[|blocks| - 1];
      Executions(blocks[..|blocks| - 1]) + Executed(b.calls, b.outputs)
  }

  function Min(a: int, b: int): int { if a < b then a else b }

  lemma ResultsNext(calls: seq<Call>, outputs: seq<string>, call: Call, output: string)
    requires |outputs| == |calls|
    ensures Results(calls + [call], outputs + [output]) == Results(calls, outputs) + [Tool(call.id, output)]
    ensures Executed(calls + [call], outputs + [output]) == Executed(calls, outputs) + [Execution(call.id, call.name, output)]
  {
  }

  lemma NoResults(before: seq<Message>, done: seq<Execution>)
    ensures before + Results([], []) == before && done + Executed([], []) == done
  {
  }

  lemma RoundExecuted(blocks: seq<Block>, b: Block)
    requires AllComplete(blocks) && Complete(b)
    ensures AllComplete(blocks + [b])
    ensures Executions(blocks + [b]) == Executions(blocks) + Executed(b.calls, b.outputs)
  {
    assert (blocks + [b])[..|blocks|] == blocks;
  }

  /** Every round runs a call. */
  lemma {:induction false} RoundsBelowRuns(blocks: seq<Block>)
    requires AllComplete(blocks)
    ensures |blocks| <= |Executions(blocks)|
  {
    if blocks != [] { RoundsBelowRuns(blocks[..|blocks| - 1]); }
  }
}
