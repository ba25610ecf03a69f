/**
 A completion as both buffered encoders take it, the checks it has to pass, and the completion a
 stream of chunks assembles to.
 */
module Completions {
  import opened Wrappers
  import opened Sorting
  import opened StreamChunks
  import Messages

  datatype Completion = Completion(
    id: string, created: int, content: Option<string>, calls: seq<Messages.ToolCall>, finishReason: string,
    usage: Option<ProviderUsage>)

  // The checks every translated completion passes; one choice, index 0 and role assistant are
  // part of the type.
  predicate Convertible(jsonObject: string -> bool, chat: Completion) {
    && (chat.content.Some? || chat.calls != [])
    && forall call <- chat.calls ::
         call.kind == "function" && ValidToolCallId(call.id) && ValidToolName(call.name) && jsonObject(call.arguments)
  }

  // --- Assembling a stream ----------------------------------------------------------------

  function ToolIndices(order: seq<Slot>): set<int> {
    set slot | slot in order && slot.ToolSlot? :: slot.index
  }

  function AssembledCall(pieces: seq<Piece>, index: int): Messages.ToolCall
    requires ToolSlot(index) in Appearances(pieces)
  {
    var opening := Opening(pieces, ToolSlot(index));
    var call := if opening.CallPiece? then opening.call else ToolCallDelta(index, "", "", None);
    Messages.ToolCall(call.id, "function", if call.func.Some? then call.func.value.name else "", Payload(pieces, ToolSlot(index)))
  }

  function AssembledCalls(pieces: seq<Piece>, indices: seq<int>): (calls: seq<Messages.ToolCall>)
    requires forall p | 0 <= p < |indices| :: ToolSlot(indices[p]) in Appearances(pieces)
    ensures |calls| == |indices|
    ensures forall p | 0 <= p < |indices| :: calls[p] == AssembledCall(pieces, indices[p])
  {
    seq(|indices|, p requires 0 <= p < |indices| => AssembledCall(pieces, indices[p]))
  }

  // The completion a buffering client assembles: text joined, calls by index, last reason and usage.
  // A chunk's time of creation is not looked at, so the completion's is given.
  function Assemble(chunks: seq<Chunk>, created: int): Completion {
    var pieces := Pieces(chunks);
    var order := Appearances(pieces);
    Completion(if chunks == [] then "" else chunks[0].id, created,
               if TextSlot in order then Some(Payload(pieces, TextSlot)) else None,
               AssembledCalls(pieces, SortedKeys(ToolIndices(order))),
               LastReason(chunks), LastUsage(chunks))
  }

  // Calls that list the tools under these keys are objects exactly when the tools' arguments are.
  lemma ListedCalls(jsonObject: string -> bool, calls: seq<Messages.ToolCall>, arguments: map<int, string>, keys: seq<int>)
    requires |calls| == |keys| && forall p | 0 <= p < |keys| :: keys[p] in arguments && calls[p].arguments == arguments[keys[p]]
    requires forall i <- arguments :: i in keys
    ensures calls == [] <==> arguments == map[]
    ensures (forall call <- calls :: jsonObject(call.arguments)) <==> (forall i <- arguments :: jsonObject(arguments[i]))
  {
    assert calls != [] ==> keys[0] in arguments;
    if calls == [] {
      assert forall i :: i !in keys && i !in arguments;
      assert arguments == map[];
    }
    if forall i <- arguments :: jsonObject(arguments[i]) {
      forall call <- calls
        ensures jsonObject(call.arguments)
      {
        var p :| 0 <= p < |calls| && calls[p] == call;
        assert keys[p] in arguments;
      }
    }
    if forall call <- calls :: jsonObject(call.arguments) {
      forall i <- arguments
        ensures jsonObject(arguments[i])
      {
        var p :| 0 <= p < |keys| && keys[p] == i;
        assert calls[p] in calls;
      }
    }
  }

  // A completion whose calls are tools with these arguments, in ascending order of index.
  predicate Lists(chat: Completion, textStarted: bool, arguments: map<int, string>) {
    var keys := SortedKeys(arguments.Keys);
    && (chat.content.Some? <==> textStarted)
    && |chat.calls| == |keys|
    && forall p | 0 <= p < |keys| :: keys[p] in arguments && ListedCall(chat.calls[p], arguments[keys[p]])
  }

  predicate ListedCall(call: Messages.ToolCall, arguments: string) {
    call.kind == "function" && ValidToolCallId(call.id) && ValidToolName(call.name) && call.arguments == arguments
  }

  predicate AllObjects(jsonObject: string -> bool, arguments: map<int, string>) {
    forall i <- arguments :: jsonObject(arguments[i])
  }

  lemma ListsConvertible(jsonObject: string -> bool, chat: Completion, textStarted: bool, arguments: map<int, string>)
    requires Lists(chat, textStarted, arguments)
    ensures Convertible(jsonObject, chat) <==> AllObjects(jsonObject, arguments) && (textStarted || arguments != map[])
    ensures (forall call <- chat.calls :: jsonObject(call.arguments)) <==> AllObjects(jsonObject, arguments)
  {
    hide ValidToolCallId, ValidToolName, SortedKeys;
    var calls, keys := chat.calls, SortedKeys(arguments.Keys);
    forall i <- arguments
      ensures i in keys
    {
      SortedKeysComplete(arguments.Keys, i);
    }
    ListedCalls(jsonObject, calls, arguments, keys);
    forall call <- calls
      ensures call.kind == "function" && ValidToolCallId(call.id) && ValidToolName(call.name)
    {
      var p :| 0 <= p < |calls| && calls[p] == call;
      assert ListedCall(calls[p], arguments[keys[p]]);
    }
  }

  // --- Usage ------------------------------------------------------------------------------

  // What the accumulator keeps of a stream's usage is its last report.
  lemma {:induction false} AccumulatedUsage(providerId: string, chunks: seq<Chunk>)
    requires ConsumeAll(providerId, chunks).Some?
    ensures var usage := ConsumeAll(providerId, chunks).value.usage;
            match LastUsage(chunks)
            case None => usage == NO_USAGE
            case Some(u) => ParseProviderUsage(u).Some? && usage == ParseProviderUsage(u).value.0
  {
    if chunks != [] {
      AccumulatedUsage(providerId, chunks[..|chunks| - 1]);
    }
  }
}
