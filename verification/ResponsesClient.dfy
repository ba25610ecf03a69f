/**
 A strict client of a Responses event stream, written without looking at the encoder. It takes
 events one by one, rejects whatever breaks the protocol, and rebuilds every output item from
 its deltas. It is the reference against which the encoder's traces are judged.
 */
module ResponsesClient {
  import opened Wrappers
  import opened ResponsesStream

  // A message's part must be opened and closed around its text; a call has no parts.
  datatype Stage = Added | PartOpen | PayloadDone | Ready | Closed

  datatype ClientItem = ClientItem(added: Item, received: string, stage: Stage)

  datatype Phase = Expecting | Announced(base: Response) | Streaming(base: Response) | Ended(response: Response)

  datatype Client = Client(received: nat, phase: Phase, items: seq<ClientItem>)

  const FRESH := Client(0, Expecting, [])

  // The item a client believes in once everything for it was received.
  function Rebuilt(ci: ClientItem): Item {
    match ci.added
    case MessageItem(id, _, _) => MessageItem(id, Completed, Some(ci.received))
    case CallItem(id, _, callId, name, namespace, _) => CallItem(id, Completed, callId, name, namespace, ci.received)
  }

  predicate Blank(item: Item) {
    item.status == InProgress && if item.MessageItem? then item.content.None? else item.arguments == ""
  }

  function Received(c: Client, k: nat): string {
    if k < |c.items| then c.items[k].received else ""
  }

  // Item k, if it is the one named and at the expected stage, with its new payload and stage.
  function Move(c: Client, k: nat, id: ItemId, isMessage: bool, from: Stage, to: Stage, payload: string): Option<Client> {
    if && k < |c.items| && c.items[k].added.id == id && c.items[k].added.MessageItem? == isMessage && c.items[k].stage == from
    then Some(c.(items := c.items[k := ClientItem(c.items[k].added, payload, to)]))
    else None
  }

  // As Move, for an event that repeats the payload received so far.
  function Confirm(c: Client, k: nat, id: ItemId, isMessage: bool, from: Stage, to: Stage, payload: string): Option<Client> {
    if Received(c, k) == payload then Move(c, k, id, isMessage, from, to, payload) else None
  }

  predicate SameResponse(a: Response, b: Response) {
    a.id == b.id && a.createdAt == b.createdAt && a.model == b.model
  }

  predicate Terminal(c: Client, response: Response) {
    && c.phase.Streaming?
    && SameResponse(response, c.phase.base)
    && (forall k | 0 <= k < |c.items| :: c.items[k].stage == Closed)
    && |response.output| == |c.items| > 0
    && (forall k | 0 <= k < |c.items| :: response.output[k] == Rebuilt(c.items[k]))
    && response.usage.Some?
    && response.status != InProgress
    && response.incompleteReason == (if response.status == Incomplete then Some("max_output_tokens") else None)
  }

  function Accept(c: Client, body: Body): Option<Client> {
    match body
    case ResponseCreated(r) =>
      if c.phase.Expecting? && r.status == InProgress && r.output == [] && r.usage == None
      then Some(c.(phase := Announced(r))) else None
    case ResponseInProgress(r) =>
      if c.phase.Announced? && r == c.phase.base then Some(c.(phase := Streaming(r))) else None
    case ResponseEnded(r) =>
      if Terminal(c, r) then Some(c.(phase := Ended(r))) else None
    case _ =>
      if !c.phase.Streaming? then None else AcceptItemEvent(c, body)
  }

  function AcceptItemEvent(c: Client, body: Body): Option<Client> {
    match body
    case OutputItemAdded(k, item) =>
      if k == |c.items| && Blank(item) then Some(c.(items := c.items + [ClientItem(item, "", Added)])) else None
    case ContentPartAdded(id, k) => Move(c, k, id, true, Added, PartOpen, Received(c, k))
    case OutputTextDelta(id, k, delta) => Move(c, k, id, true, PartOpen, PartOpen, Received(c, k) + delta)
    case ArgumentsDelta(id, k, delta) => Move(c, k, id, false, Added, Added, Received(c, k) + delta)
    case OutputTextDone(id, k, text) => Confirm(c, k, id, true, PartOpen, PayloadDone, text)
    case ContentPartDone(id, k, text) => Confirm(c, k, id, true, PayloadDone, Ready, text)
    case ArgumentsDone(id, k, arguments) => Confirm(c, k, id, false, Added, Ready, arguments)
    case OutputItemDone(k, item) =>
      if k < |c.items| && item == Rebuilt(c.items[k])
      then Move(c, k, item.id, item.MessageItem?, Ready, Closed, Received(c, k)) else None
    case _ => None
  }

  function Receive(c: Client, e: Event): Option<Client> {
    if e.sequence != c.received + 1 then None else
    match Accept(c, e.body)
    case None => None
    case Some(next) => Some(next.(received := e.sequence))
  }

  function ReceiveAll(c: Client, events: seq<Event>): Option<Client> {
    if events == [] then Some(c) else
    match ReceiveAll(c, events[..|events| - 1])
    case None => None
    case Some(before) => Receive(before, events[|events| - 1])
  }

  lemma {:induction false} ReceiveConcat(c: Client, xs: seq<Event>, ys: seq<Event>)
    requires ReceiveAll(c, xs).Some?
    ensures ReceiveAll(c, xs + ys) == ReceiveAll(ReceiveAll(c, xs).value, ys)
  {
    if ys == [] {
      assert xs + ys == xs;
    } else {
      ReceiveConcat(c, xs, ys[..|ys| - 1]);
      assert (xs + ys)[..|xs + ys| - 1] == xs + ys[..|ys| - 1];
    }
  }

  lemma ReceiveOne(c: Client, e: Event)
    ensures ReceiveAll(c, [e]) == Receive(c, e)
  {
    hide Receive;
    assert [e][..0] == [];
    assert ReceiveAll(c, []) == Some(c);
  }

  lemma ReceiveTwo(c: Client, a: Event, b: Event)
    ensures ReceiveAll(c, [a, b]) == match Receive(c, a) case None => None case Some(d) => Receive(d, b)
  {
    hide Receive;
    ReceiveOne(c, a);
    assert [a, b][..1] == [a];
  }

  lemma ReceiveThree(c: Client, a: Event, b: Event, d: Event)
    ensures ReceiveAll(c, [a, b, d]) == match ReceiveAll(c, [a, b]) case None => None case Some(x) => Receive(x, d)
  {
    hide Receive;
    assert [a, b, d][..2] == [a, b];
  }
}
