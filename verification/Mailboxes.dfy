/** The agents' FIFO mailbox: idempotent sending, delivery in order, redelivery, final states, snapshots. */
module Mailboxes {
  import opened Outcomes
  import opened Text

  datatype Status = Queued | Delivered | Acknowledged | Cancelled

  /** The payload is its canonical JSON text; times are instants. */
  datatype Message = Message(id: string, runId: string, sequence: nat, recipient: string, sender: Option<string>,
                             kind: string, payload: string, key: Option<string>, status: Status, attempts: nat,
                             deliveryId: Option<string>, deliveredAt: Option<int>)

  datatype Input = Input(recipient: string, sender: Option<string>, kind: string, payload: string, key: Option<string>,
                         messageId: Option<string>)

  datatype MailError =
    | EmptyRecipient | EmptyKey | EmptyMessageId | EmptyDeliveryId | KeyReused | DuplicateMessage | UnknownMessage
    | WrongRecipient | NotDelivered | StaleDelivery | AlreadyAcknowledged | BadSnapshot

  type Messages = map<string, Message>

  /** Keyed by (recipient, key). */
  type Index = map<(string, string), string>

  datatype Box = Box(runId: string, nextSequence: nat, messages: Messages, index: Index)

  // ----- The invariant -----

  predicate Sequenced(messages: Messages)
  {
    forall a, b :: a in messages && b in messages && messages[a].sequence == messages[b].sequence ==> a == b
  }

  predicate MessageOk(b: Box, id: string)
    requires id in b.messages
  {
    var m := b.messages[id];
    && m.id == id && m.runId == b.runId && 1 <= m.sequence < b.nextSequence
    && (m.status == Delivered ==> m.deliveredAt.Some?)
    && (m.key.Some? ==> (m.recipient, m.key.value) in b.index && b.index[(m.recipient, m.key.value)] == id)
  }

  predicate EntryOk(b: Box, k: (string, string))
    requires k in b.index
  {
    b.index[k] in b.messages && b.messages[b.index[k]].recipient == k.0 && b.messages[b.index[k]].key == Some(k.1)
  }

  /** Sequences are unique and below the next one, and the index holds exactly the keyed messages. */
  predicate Sound(b: Box)
  {
    && b.nextSequence >= 1 && Sequenced(b.messages)
    && (forall id :: id in b.messages ==> MessageOk(b, id))
    && (forall k :: k in b.index ==> EntryOk(b, k))
  }

  /** A message that has reached its recipient was overtaken by none sent to it before: those have reached it too, or
      were cancelled. */
  predicate InSendOrder(messages: Messages)
  {
    forall a, b :: a in messages && b in messages && messages[a].recipient == messages[b].recipient
                   && messages[a].sequence < messages[b].sequence && messages[b].attempts > 0
                   ==> messages[a].attempts > 0 || messages[a].status == Cancelled
  }

  /** A queued or delivered message's status agrees with its count of deliveries. */
  predicate Counted(messages: Messages)
  {
    forall id :: id in messages && (messages[id].status == Delivered || messages[id].status == Acknowledged) ==>
      messages[id].attempts > 0
  }

  // ----- Listing -----

  function At(messages: Messages, i: nat): (r: Option<Message>)
    requires Sequenced(messages)
    ensures r.Some? ==> r.value.sequence == i && exists id :: id in messages && messages[id] == r.value
    ensures forall id :: id in messages && messages[id].sequence == i ==> r == Some(messages[id])
  {
    if exists id :: id in messages && messages[id].sequence == i then
      var id :| id in messages && messages[id].sequence == i;
      Some(messages[id])
    else None
  }

  /** The messages with sequences from `i` up to `n`, in order: `listMessages`, filtered. */
  function ListFrom(messages: Messages, i: nat, n: nat, choose: Message -> bool): (r: seq<Message>)
    requires Sequenced(messages) && i <= n
    ensures forall j :: 0 <= j < |r| ==> i <= r[j].sequence < n
    ensures forall j, k :: 0 <= j < k < |r| ==> r[j].sequence < r[k].sequence
    decreases n - i
  {
    if i == n then []
    else
      var rest := ListFrom(messages, i + 1, n, choose);
      match At(messages, i)
      case None => rest
      case Some(m) => if choose(m) then [m] + rest else rest
  }

  lemma {:induction false} ListedIff(messages: Messages, i: nat, n: nat, choose: Message -> bool, m: Message)
    requires Sequenced(messages) && i <= n
    ensures m in ListFrom(messages, i, n, choose) <==>
            choose(m) && i <= m.sequence < n && exists id :: id in messages && messages[id] == m
    decreases n - i
  {
    if i < n {
      ListedIff(messages, i + 1, n, choose, m);
      if m.sequence == i && choose(m) && exists id :: id in messages && messages[id] == m {
        var id :| id in messages && messages[id] == m;
        assert At(messages, i) == Some(m);
      }
    }
  }

  predicate Everything(m: Message) { true }

  function All(b: Box): seq<Message>
    requires Sound(b)
  {
    ListFrom(b.messages, 0, b.nextSequence, Everything)
  }

  function Waiting(b: Box, recipient: string): seq<Message>
    requires Sound(b)
  {
    ListFrom(b.messages, 0, b.nextSequence, (m: Message) => m.recipient == recipient && m.status == Queued)
  }

  // ----- Operations -----

  predicate SameMessage(m: Message, input: Input)
  {
    m.recipient == input.recipient && m.sender == input.sender && m.kind == input.kind && m.key == input.key
    && (input.messageId.Some? ==> m.id == input.messageId.value) && m.payload == input.payload
  }

  function InputError(input: Input): Option<MailError>
  {
    if input.recipient == "" then Some(EmptyRecipient)
    else if input.key.Some? && IsBlank(input.key.value) then Some(EmptyKey)
    else if input.messageId.Some? && IsBlank(input.messageId.value) then Some(EmptyMessageId)
    else None
  }

  function NewMessage(b: Box, id: string, input: Input): Message
  {
    Message(id, b.runId, b.nextSequence, input.recipient, input.sender, input.kind, input.payload, input.key, Queued, 0,
            None, None)
  }

  /** A message already sent under the key of the input. */
  function Prior(b: Box, input: Input): Option<Message>
  {
    if input.key.Some? && (input.recipient, input.key.value) in b.index
       && b.index[(input.recipient, input.key.value)] in b.messages
    then Some(b.messages[b.index[(input.recipient, input.key.value)]])
    else None
  }

  /** `enqueue`; `freshId` is the identity derived for an input that brings none. */
  function Enqueue(b: Box, input: Input, freshId: string): Result<(Box, Message), MailError>
  {
    if InputError(input).Some? then Err(InputError(input).value)
    else
      match Prior(b, input)
      case Some(m) => if SameMessage(m, input) then Ok((b, m)) else Err(KeyReused)
      case None =>
        var id := if input.messageId.Some? then input.messageId.value else freshId;
        if id in b.messages then Err(DuplicateMessage)
        else
          var m := NewMessage(b, id, input);
          Ok((Box(b.runId, b.nextSequence + 1, b.messages[id := m],
                  if input.key.Some? then b.index[(input.recipient, input.key.value) := id] else b.index), m))
  }

  function Delivery(m: Message, deliveryId: string, at: int): Message
  {
    m.(status := Delivered, attempts := m.attempts + 1, deliveryId := Some(deliveryId), deliveredAt := Some(at))
  }

  /** The deliveries of a batch, written one after the other. */
  function Deliver(messages: Messages, batch: seq<Message>, name: Message -> string, at: int): Messages
  {
    if batch == [] then messages
    else
      var n := |batch| - 1;
      Deliver(messages, batch[..n], name, at)[batch[n].id := Delivery(batch[n], name(batch[n]), at)]
  }

  /** `claim`: the oldest queued messages of the recipient, at most `limit`. */
  function Batch(b: Box, recipient: string, limit: nat): seq<Message>
    requires Sound(b)
  {
    var waiting := Waiting(b, recipient);
    if limit < |waiting| then waiting[..limit] else waiting
  }

  function Claim(b: Box, recipient: string, limit: nat, name: Message -> string, at: int): Box
    requires Sound(b)
  {
    b.(messages := Deliver(b.messages, Batch(b, recipient, limit), name, at))
  }

  /** The delivery id of each message: the one given, or one derived from the message. */
  function Naming(given: Option<string>, derive: Message -> string): Message -> string
  {
    m => if given.Some? then given.value else derive(m)
  }

  predicate DeliveryMatches(m: Message, deliveryId: Option<string>)
  {
    deliveryId.Some? ==> m.deliveryId == deliveryId
  }

  function Acknowledge(b: Box, id: string, recipient: string, deliveryId: Option<string>): Result<Box, MailError>
  {
    if id !in b.messages then Err(UnknownMessage)
    else
      var m := b.messages[id];
      if m.recipient != recipient then Err(WrongRecipient)
      else if m.status == Acknowledged then Ok(b)
      else if m.status != Delivered then Err(NotDelivered)
      else if !DeliveryMatches(m, deliveryId) then Err(StaleDelivery)
      else Ok(b.(messages := b.messages[id := m.(status := Acknowledged)]))
  }

  function Requeue(b: Box, id: string, recipient: string, deliveryId: Option<string>): Result<Box, MailError>
  {
    if id !in b.messages then Err(UnknownMessage)
    else
      var m := b.messages[id];
      if m.recipient != recipient then Err(WrongRecipient)
      else if m.status != Delivered then Err(NotDelivered)
      else if !DeliveryMatches(m, deliveryId) then Err(StaleDelivery)
      else Ok(b.(messages := b.messages[id := m.(status := Queued)]))
  }

  function Cancel(b: Box, id: string): Result<Box, MailError>
  {
    if id !in b.messages then Err(UnknownMessage)
    else
      var m := b.messages[id];
      if m.status == Cancelled then Ok(b)
      else if m.status == Acknowledged then Err(AlreadyAcknowledged)
      else Ok(b.(messages := b.messages[id := m.(status := Cancelled)]))
  }

  // ----- Histories -----

  datatype Op =
    | DoEnqueue(input: Input, freshId: string)
    | DoClaim(recipient: string, limit: nat, name: Message -> string, at: int)
    | DoAcknowledge(id: string, recipient: string, deliveryId: Option<string>)
    | DoRequeue(id: string, recipient: string, deliveryId: Option<string>)
    | DoCancel(id: string)

  function Next(b: Box, op: Op): Box
    requires Sound(b)
  {
    match op
    case DoEnqueue(input, freshId) => (match Enqueue(b, input, freshId) case Ok(r) => r.0 case Err(_) => b)
    case DoClaim(recipient, limit, name, at) => Claim(b, recipient, limit, name, at)
    case DoAcknowledge(id, r, d) => (match Acknowledge(b, id, r, d) case Ok(next) => next case Err(_) => b)
    case DoRequeue(id, r, d) => (match Requeue(b, id, r, d) case Ok(next) => next case Err(_) => b)
    case DoCancel(id) => (match Cancel(b, id) case Ok(next) => next case Err(_) => b)
  }

  predicate Reachable(b: Box) { Sound(b) && InSendOrder(b.messages) && Counted(b.messages) }

  lemma EnqueueSound(b: Box, input: Input, freshId: string)
    requires Sound(b) && Enqueue(b, input, freshId).Ok?
    ensures Sound(Enqueue(b, input, freshId).value.0)
  {
    hide InputError, SameMessage;
    var next := Enqueue(b, input, freshId).value.0;
    assert forall id :: id in b.messages ==> MessageOk(b, id);
    assert forall k :: k in b.index ==> EntryOk(b, k);
  }

  lemma EnqueueReachable(b: Box, input: Input, freshId: string)
    requires Reachable(b) && Enqueue(b, input, freshId).Ok?
    ensures Reachable(Enqueue(b, input, freshId).value.0)
  {
    EnqueueSound(b, input, freshId);
    assert forall id :: id in b.messages ==> b.messages[id].sequence < b.nextSequence by {
      assert forall id :: id in b.messages ==> MessageOk(b, id);
    }
    hide Sound, InputError, SameMessage;
  }

  /** One message changes its status, and at most gains deliveries. */
  lemma StatusReachable(b: Box, id: string, m: Message)
    requires Reachable(b) && id in b.messages
    requires var was := b.messages[id]; m == was.(status := m.status)
    requires m.status == Delivered || m.status == Acknowledged ==> b.messages[id].attempts > 0 && m.deliveredAt.Some?
    requires b.messages[id].status == Cancelled ==> m.status == Cancelled
    ensures Reachable(b.(messages := b.messages[id := m]))
  {
  }

  // ----- Claiming -----

  predicate IsBatch(messages: Messages, batch: seq<Message>)
  {
    && (forall i :: 0 <= i < |batch| ==> batch[i].id in messages && messages[batch[i].id] == batch[i])
    && (forall i, j :: 0 <= i < j < |batch| ==> batch[i].id != batch[j].id)
  }

  lemma {:induction false} DeliverEffect(messages: Messages, batch: seq<Message>, name: Message -> string, at: int)
    requires IsBatch(messages, batch)
    ensures Deliver(messages, batch, name, at).Keys == messages.Keys
    ensures forall id :: id in messages ==>
              Deliver(messages, batch, name, at)[id]
              == if messages[id] in batch && messages[id].id == id then Delivery(messages[id], name(messages[id]), at)
                 else messages[id]
  {
    if batch != [] {
      var n := |batch| - 1;
      DeliverEffect(messages, batch[..n], name, at);
      assert forall m :: m in batch <==> m in batch[..n] || m == batch[n];
      assert batch[n] !in batch[..n];
    }
  }

  predicate IsWaiting(b: Box, recipient: string, id: string)
  {
    id in b.messages && b.messages[id].recipient == recipient && b.messages[id].status == Queued
  }

  lemma WaitingListed(b: Box, recipient: string)
    requires Sound(b)
    ensures forall m :: m in Waiting(b, recipient) <==> IsWaiting(b, recipient, m.id) && b.messages[m.id] == m
  {
    var choose := (m: Message) => m.recipient == recipient && m.status == Queued;
    forall m ensures m in Waiting(b, recipient) <==> IsWaiting(b, recipient, m.id) && b.messages[m.id] == m {
      ListedIff(b.messages, 0, b.nextSequence, choose, m);
      if id :| id in b.messages && b.messages[id] == m {
        assert MessageOk(b, id);
      }
    }
  }

  lemma BatchIsWaiting(b: Box, recipient: string, limit: nat)
    requires Sound(b)
    ensures var batch := Batch(b, recipient, limit);
            && IsBatch(b.messages, batch) && |batch| <= limit
            && (forall i :: 0 <= i < |batch| ==> batch[i].recipient == recipient && batch[i].status == Queued)
            && (forall i, j :: 0 <= i < j < |batch| ==> batch[i].sequence < batch[j].sequence)
  {
    var waiting, batch := Waiting(b, recipient), Batch(b, recipient, limit);
    WaitingListed(b, recipient);
    hide Sound, ListFrom;
    assert forall i :: 0 <= i < |batch| ==> batch[i] == waiting[i] && waiting[i] in waiting;
  }

  lemma OlderIsTaken(b: Box, recipient: string, limit: nat, id: string)
    requires Sound(b) && IsWaiting(b, recipient, id)
    ensures var batch := Batch(b, recipient, limit);
            || b.messages[id] in batch
            || (|batch| == limit && forall i :: 0 <= i < |batch| ==> batch[i].sequence < b.messages[id].sequence)
  {
    var waiting, batch := Waiting(b, recipient), Batch(b, recipient, limit);
    WaitingListed(b, recipient);
    assert b.messages[id].id == id by { assert MessageOk(b, id); }
    hide Sound;
    assert b.messages[id] in waiting;
    var k :| 0 <= k < |waiting| && waiting[k] == b.messages[id];
    if k < |batch| {
      assert batch[k] == b.messages[id];
    }
  }

  /** A claim takes queued messages of its recipient, the oldest ones, in order. */
  lemma BatchIsOldest(b: Box, recipient: string, limit: nat)
    requires Sound(b)
    ensures var batch := Batch(b, recipient, limit);
            && IsBatch(b.messages, batch) && |batch| <= limit
            && (forall i :: 0 <= i < |batch| ==> batch[i].recipient == recipient && batch[i].status == Queued)
            && (forall i, j :: 0 <= i < j < |batch| ==> batch[i].sequence < batch[j].sequence)
            && (forall id :: IsWaiting(b, recipient, id) ==>
                  || b.messages[id] in batch
                  || (|batch| == limit && forall i :: 0 <= i < |batch| ==> batch[i].sequence < b.messages[id].sequence))
  {
    hide Sound, Batch, IsBatch;
    BatchIsWaiting(b, recipient, limit);
    forall id | IsWaiting(b, recipient, id)
      ensures var batch := Batch(b, recipient, limit);
              || b.messages[id] in batch
              || (|batch| == limit && forall i :: 0 <= i < |batch| ==> batch[i].sequence < b.messages[id].sequence)
    {
      OlderIsTaken(b, recipient, limit, id);
    }
  }

  lemma ClaimSound(b: Box, recipient: string, limit: nat, name: Message -> string, at: int)
    requires Sound(b)
    ensures Sound(Claim(b, recipient, limit, name, at))
  {
    var batch, next := Batch(b, recipient, limit), Claim(b, recipient, limit, name, at);
    BatchIsOldest(b, recipient, limit);
    DeliverEffect(b.messages, batch, name, at);
    hide Batch, Deliver;
    assert forall id :: id in b.messages ==> MessageOk(b, id);
    forall id | id in next.messages ensures MessageOk(next, id) {
      assert MessageOk(b, id);
    }
    forall k | k in next.index ensures EntryOk(next, k) {
      assert EntryOk(b, k);
    }
    assert forall id :: id in b.messages ==> next.messages[id].sequence == b.messages[id].sequence;
    hide MessageOk, EntryOk;
  }

  /** What a claim does to one message. */
  lemma ClaimEffect(b: Box, recipient: string, limit: nat, name: Message -> string, at: int, id: string)
    requires Sound(b) && id in b.messages
    ensures var next := Claim(b, recipient, limit, name, at).messages;
            var m := b.messages[id];
            id in next && next[id] == if m in Batch(b, recipient, limit) then Delivery(m, name(m), at) else m
  {
    hide Batch, Deliver;
    BatchIsOldest(b, recipient, limit);
    DeliverEffect(b.messages, Batch(b, recipient, limit), name, at);
    assert MessageOk(b, id);
  }

  /** A claim does not let a message overtake one that was sent before it. */
  lemma NotOvertaken(b: Box, recipient: string, limit: nat, name: Message -> string, at: int, x: string, y: string)
    requires Reachable(b) && x in b.messages && y in b.messages
    requires b.messages[x].recipient == b.messages[y].recipient && b.messages[x].sequence < b.messages[y].sequence
    ensures var next := Claim(b, recipient, limit, name, at).messages;
            x in next && y in next && (next[y].attempts > 0 ==> next[x].attempts > 0 || next[x].status == Cancelled)
  {
    ClaimEffect(b, recipient, limit, name, at, x);
    ClaimEffect(b, recipient, limit, name, at, y);
    BatchIsOldest(b, recipient, limit);
    assert b.messages[x].status == Queued && b.messages[x].recipient == recipient <==> IsWaiting(b, recipient, x);
    hide Sound, Batch, Claim;
  }

  lemma ClaimInOrder(b: Box, recipient: string, limit: nat, name: Message -> string, at: int)
    requires Reachable(b)
    ensures InSendOrder(Claim(b, recipient, limit, name, at).messages)
  {
    var next := Claim(b, recipient, limit, name, at);
    forall id ensures id in next.messages <==> id in b.messages {
      SameIds(b, recipient, limit, name, at, id);
    }
    forall id | id in b.messages
      ensures next.messages[id].recipient == b.messages[id].recipient
          && next.messages[id].sequence == b.messages[id].sequence
    {
      ClaimEffect(b, recipient, limit, name, at, id);
    }
    hide Claim, Sound, Counted;
    forall x, y | x in b.messages && y in b.messages && b.messages[x].recipient == b.messages[y].recipient
                  && b.messages[x].sequence < b.messages[y].sequence && next.messages[y].attempts > 0
      ensures next.messages[x].attempts > 0 || next.messages[x].status == Cancelled
    {
      NotOvertaken(b, recipient, limit, name, at, x, y);
    }
  }

  lemma SameIds(b: Box, recipient: string, limit: nat, name: Message -> string, at: int, id: string)
    requires Sound(b)
    ensures id in Claim(b, recipient, limit, name, at).messages <==> id in b.messages
  {
    hide Sound, Batch, Deliver;
    BatchIsOldest(b, recipient, limit);
    DeliverEffect(b.messages, Batch(b, recipient, limit), name, at);
  }

  lemma ClaimReachable(b: Box, recipient: string, limit: nat, name: Message -> string, at: int)
    requires Reachable(b)
    ensures Reachable(Claim(b, recipient, limit, name, at))
  {
    var next := Claim(b, recipient, limit, name, at);
    ClaimSound(b, recipient, limit, name, at);
    ClaimInOrder(b, recipient, limit, name, at);
    hide Sound, InSendOrder, Claim;
    forall id | id in next.messages
        && (next.messages[id].status == Delivered || next.messages[id].status == Acknowledged)
      ensures next.messages[id].attempts > 0
    {
      SameIds(b, recipient, limit, name, at, id);
      ClaimEffect(b, recipient, limit, name, at, id);
    }
  }

  lemma NextReachable(b: Box, op: Op)
    requires Reachable(b)
    ensures Reachable(Next(b, op))
  {
    hide Enqueue, Claim;
    match op
    case DoEnqueue(input, freshId) => if Enqueue(b, input, freshId).Ok? { EnqueueReachable(b, input, freshId); }
    case DoClaim(recipient, limit, name, at) => ClaimReachable(b, recipient, limit, name, at);
    case _ => StatusOpReachable(b, op);
  }

  lemma StatusOpReachable(b: Box, op: Op)
    requires Reachable(b) && (op.DoAcknowledge? || op.DoRequeue? || op.DoCancel?)
    ensures Reachable(Next(b, op))
  {
    if op.id in b.messages {
      var m := b.messages[op.id];
      assert MessageOk(b, op.id);
      if m.status == Delivered {
        StatusReachable(b, op.id, m.(status := Acknowledged));
        StatusReachable(b, op.id, m.(status := Queued));
      }
      StatusReachable(b, op.id, m.(status := Cancelled));
    }
    hide Reachable;
  }

  function Play(runId: string, history: seq<Op>): (b: Box)
    ensures Reachable(b)
  {
    if history == [] then Box(runId, 1, map[], map[])
    else
      var n := |history| - 1;
      var before := Play(runId, history[..n]);
      NextReachable(before, history[n]);
      Next(before, history[n])
  }

  // ----- First deliveries -----

  /** The sequences of the messages that the step delivers to `r` for the first time, in order of delivery. */
  function FirstTimers(batch: seq<Message>): seq<nat>
  {
    if batch == [] then []
    else FirstTimers(batch[..|batch| - 1])
         + if batch[|batch| - 1].attempts == 0 then [batch[|batch| - 1].sequence] else []
  }

  function FirstDeliveries(runId: string, history: seq<Op>, r: string): seq<nat>
  {
    if history == [] then []
    else
      var n := |history| - 1;
      FirstDeliveries(runId, history[..n], r)
      + if history[n].DoClaim? && history[n].recipient == r
        then FirstTimers(Batch(Play(runId, history[..n]), r, history[n].limit)) else []
  }

  predicate Increasing(s: seq<nat>) { forall i, j :: 0 <= i < j < |s| ==> s[i] < s[j] }

  lemma {:induction false} FirstTimersIncrease(batch: seq<Message>)
    requires forall i, j :: 0 <= i < j < |batch| ==> batch[i].sequence < batch[j].sequence
    ensures Increasing(FirstTimers(batch))
    ensures forall s :: s in FirstTimers(batch) ==>
                        exists i :: 0 <= i < |batch| && batch[i].attempts == 0 && batch[i].sequence == s
  {
    if batch != [] {
      var n := |batch| - 1;
      var earlier := FirstTimers(batch[..n]);
      FirstTimersIncrease(batch[..n]);
      forall s | s in earlier
        ensures s < batch[n].sequence && exists i :: 0 <= i < n && batch[i].attempts == 0 && batch[i].sequence == s
      {
        var i :| 0 <= i < n && batch[..n][i].attempts == 0 && batch[..n][i].sequence == s;
        assert batch[i] == batch[..n][i];
      }
      forall s | s in FirstTimers(batch)
        ensures exists i :: 0 <= i < |batch| && batch[i].attempts == 0 && batch[i].sequence == s
      {
        if s !in earlier {
          assert batch[n].attempts == 0 && batch[n].sequence == s;
        }
      }
      IncreasingJoin(earlier, if batch[n].attempts == 0 then [batch[n].sequence] else []);
    }
  }

  lemma IncreasingJoin(a: seq<nat>, b: seq<nat>)
    requires Increasing(a) && Increasing(b) && forall x, y :: x in a && y in b ==> x < y
    ensures Increasing(a + b)
  {
    assert forall i :: 0 <= i < |a| ==> a[i] in a;
    assert forall i :: 0 <= i < |b| ==> b[i] in b;
  }

  /** The message with that sequence has reached its recipient `r`. */
  ghost predicate HasReached(messages: Messages, r: string, s: nat)
  {
    exists id :: id in messages && messages[id].recipient == r && messages[id].sequence == s
        && messages[id].attempts > 0
  }

  lemma ReachedStays(b: Box, op: Op, r: string, s: nat)
    requires Reachable(b) && HasReached(b.messages, r, s)
    ensures HasReached(Next(b, op).messages, r, s)
  {
    var id :| id in b.messages && b.messages[id].recipient == r && b.messages[id].sequence == s
        && b.messages[id].attempts > 0;
    StepMessage(b, op, id);
    hide Next, Reachable;
    var m := Next(b, op).messages[id];
    assert m.recipient == r && m.sequence == s && m.attempts > 0;
  }

  /** What a step does to a message: its content and place stay, its deliveries only grow, and acknowledged and
      cancelled are final. */
  lemma StepMessage(b: Box, op: Op, id: string)
    requires Reachable(b) && id in b.messages
    ensures var next := Next(b, op).messages;
            var m := b.messages[id];
            && id in next
            && next[id] == m.(status := next[id].status, attempts := next[id].attempts,
                deliveryId := next[id].deliveryId, deliveredAt := next[id].deliveredAt)
            && next[id].attempts >= m.attempts
            && (m.status == Acknowledged || m.status == Cancelled ==> next[id] == m)
  {
    if op.DoClaim? {
      BatchIsOldest(b, op.recipient, op.limit);
      ClaimEffect(b, op.recipient, op.limit, op.name, op.at, id);
      hide Claim, Batch, Sound;
    } else {
      hide Sound, InputError, SameMessage;
    }
  }

  lemma BatchReaches(b: Box, recipient: string, limit: nat, name: Message -> string, at: int, s: nat)
    requires Reachable(b) && s in FirstTimers(Batch(b, recipient, limit))
    ensures HasReached(Claim(b, recipient, limit, name, at).messages, recipient, s)
    ensures forall x: nat :: HasReached(b.messages, recipient, x) ==> x < s
  {
    var batch := Batch(b, recipient, limit);
    BatchIsOldest(b, recipient, limit);
    FirstTimersIncrease(batch);
    var i :| 0 <= i < |batch| && batch[i].attempts == 0 && batch[i].sequence == s;
    ClaimEffect(b, recipient, limit, name, at, batch[i].id);
    assert batch[i] in batch;
    hide Batch, Claim, FirstTimers;
    var a := batch[i].id;
    assert b.messages[a].attempts == 0 && b.messages[a].status == Queued && b.messages[a].sequence == s;
    forall x: nat | HasReached(b.messages, recipient, x) ensures x < s {
      var id :| id in b.messages && b.messages[id].recipient == recipient && b.messages[id].sequence == x
                && b.messages[id].attempts > 0;
    }
  }

  /** Messages reach a recipient for the first time in the order they were sent, whatever is requeued, cancelled,
      acknowledged or claimed again in between. */
  lemma {:induction false} FirstDeliveriesInOrder(runId: string, history: seq<Op>, r: string)
    ensures Increasing(FirstDeliveries(runId, history, r))
    ensures forall s :: s in FirstDeliveries(runId, history, r) ==> HasReached(Play(runId, history).messages, r, s)
    decreases |history|
  {
    hide Next, Batch, HasReached, Reachable;
    if history != [] {
      var n := |history| - 1;
      var before, earlier := Play(runId, history[..n]), FirstDeliveries(runId, history[..n], r);
      assert Sound(before) by { ReachableIsSound(before); }
      FirstDeliveriesInOrder(runId, history[..n], r);
      forall s | s in earlier ensures HasReached(Play(runId, history).messages, r, s) {
        ReachedStays(before, history[n], r, s);
      }
      if history[n].DoClaim? && history[n].recipient == r {
        var op := history[n];
        var fresh' := FirstTimers(Batch(before, r, op.limit));
        assert Next(before, op) == Claim(before, r, op.limit, op.name, op.at) by { NextIsClaim(before, op); }
        forall s | s in fresh'
            ensures HasReached(Play(runId, history).messages, r, s) && forall x :: x in earlier ==> x < s {
          BatchReaches(before, r, op.limit, op.name, op.at, s);
        }
        BatchIncreases(before, r, op.limit);
        hide FirstTimers;
        IncreasingJoin(earlier, fresh');
        assert FirstDeliveries(runId, history, r) == earlier + fresh';
      }
    }
  }

  lemma ReachableIsSound(b: Box)
    requires Reachable(b)
    ensures Sound(b)
  {
  }

  lemma NextIsClaim(b: Box, op: Op)
    requires Sound(b) && op.DoClaim?
    ensures Next(b, op) == Claim(b, op.recipient, op.limit, op.name, op.at)
  {
  }

  lemma BatchIncreases(b: Box, r: string, limit: nat)
    requires Sound(b)
    ensures Increasing(FirstTimers(Batch(b, r, limit)))
  {
    BatchIsOldest(b, r, limit);
    FirstTimersIncrease(Batch(b, r, limit));
  }

  // ----- Forever -----

  lemma {:induction false} MessageForever(runId: string, history: seq<Op>, more: seq<Op>, id: string)
    requires id in Play(runId, history).messages
    ensures var m := Play(runId, history).messages[id];
            var later := Play(runId, history + more).messages;
            && id in later && later[id].attempts >= m.attempts
            && later[id] == m.(status := later[id].status, attempts := later[id].attempts,
                               deliveryId := later[id].deliveryId, deliveredAt := later[id].deliveredAt)
            && (m.status == Acknowledged || m.status == Cancelled ==> later[id] == m)
    ensures forall k :: k in Play(runId, history).index ==>
              k in Play(runId, history + more).index
              && Play(runId, history + more).index[k] == Play(runId, history).index[k]
    decreases |more|
  {
    hide Next, Reachable;
    if more == [] {
      assert history + more == history;
    } else {
      var n := |more| - 1;
      MessageForever(runId, history, more[..n], id);
      assert (history + more)[..|history + more| - 1] == history + more[..n];
      var before := Play(runId, history + more[..n]);
      StepMessage(before, more[n], id);
      StepIndex(before, more[n]);
    }
  }

  lemma StepIndex(b: Box, op: Op)
    requires Reachable(b)
    ensures forall k :: k in b.index ==> k in Next(b, op).index && Next(b, op).index[k] == b.index[k]
  {
    assert forall k :: k in b.index ==> EntryOk(b, k);
    hide Sound, InputError, SameMessage, Deliver;
  }

  /** A retry of a keyed message returns the message that was sent the first time and changes nothing, however much
      later it comes. */
  lemma RetryReturnsFirst(runId: string, history: seq<Op>, input: Input, freshId: string, more: seq<Op>,
      otherId: string)
    requires input.key.Some? && Enqueue(Play(runId, history), input, freshId).Ok?
    ensures var sent := Enqueue(Play(runId, history), input, freshId).value.1;
            var later := Play(runId, history + [DoEnqueue(input, freshId)] + more);
            && sent.id in later.messages
            && Enqueue(later, input, otherId) == Ok((later, later.messages[sent.id]))
            && later.messages[sent.id].sequence == sent.sequence && SameMessage(later.messages[sent.id], input)
  {
    var before := Play(runId, history);
    var first := history + [DoEnqueue(input, freshId)];
    var after, sent := Enqueue(before, input, freshId).value.0, Enqueue(before, input, freshId).value.1;
    assert first[..|first| - 1] == history;
    assert Play(runId, first) == after;
    SentIsFiled(before, input, freshId);
    MessageForever(runId, first, more, sent.id);
    hide Play, InputError;
  }

  lemma SentIsFiled(b: Box, input: Input, freshId: string)
    requires Reachable(b) && input.key.Some? && Enqueue(b, input, freshId).Ok?
    ensures var (next, sent) := Enqueue(b, input, freshId).value;
            && sent.id in next.messages && next.messages[sent.id] == sent && SameMessage(sent, input)
            && (input.recipient, input.key.value) in next.index
            && next.index[(input.recipient, input.key.value)] == sent.id
  {
    assert forall id :: id in b.messages ==> MessageOk(b, id);
    hide Sound;
  }
}
