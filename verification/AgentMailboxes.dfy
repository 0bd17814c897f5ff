/** The mailbox as an object, and its snapshots. */
module AgentMailboxes {
  import opened Outcomes
  import opened Mailboxes
  import opened Text

  datatype Snapshot = Snapshot(runId: string, nextSequence: int, messages: seq<Message>)

  class AgentMailbox {
    const runId: string
    var nextSequence: nat
    var messagesById: Messages
    var idempotentMessageIds: Index

    ghost function Contents(): Box
      reads this
    {
      Box(runId, nextSequence, messagesById, idempotentMessageIds)
    }

    ghost predicate Valid()
      reads this
    {
      Sound(Contents())
    }

    constructor (runId: string)
      ensures Valid() && Contents() == Box(runId, 1, map[], map[])
    {
      this.runId, nextSequence, messagesById, idempotentMessageIds := runId, 1, map[], map[];
    }

    method Enqueue(input: Input, freshId: string) returns (r: Result<Message, MailError>)
      requires Valid()
      modifies this
      ensures Valid()
      ensures var spec := Mailboxes.Enqueue(old(Contents()), input, freshId);
              if spec.Ok? then r == Ok(spec.value.1) && Contents() == spec.value.0
              else r == Err(spec.error) && Contents() == old(Contents())
    {
      hide Sound, InputError, SameMessage;
      var error := InputError(input);
      if error.Some? {
        return Err(error.value);
      }
      if input.key.Some? && (input.recipient, input.key.value) in idempotentMessageIds {
        var existingId := idempotentMessageIds[(input.recipient, input.key.value)];
        FiledIsThere(Contents(), (input.recipient, input.key.value));
        var existing := messagesById[existingId];
        if !SameMessage(existing, input) {
          return Err(KeyReused);
        }
        return Ok(existing);
      }
      var id := if input.messageId.Some? then input.messageId.value else freshId;
      if id in messagesById {
        return Err(DuplicateMessage);
      }
      EnqueueSound(Contents(), input, freshId);
      var message := Message(id, runId, nextSequence, input.recipient, input.sender, input.kind, input.payload,
          input.key, Queued, 0, None, None);
      messagesById := messagesById[id := message];
      if message.key.Some? {
        idempotentMessageIds := idempotentMessageIds[(message.recipient, message.key.value) := id];
      }
      nextSequence := nextSequence + 1;
      return Ok(message);
    }

    /** Nothing is claimed with a limit of zero, and nothing under a blank delivery id. */
    method Claim(recipient: string, limit: nat, given: Option<string>, derive: Message -> string, at: int)
        returns (r: Result<seq<Message>, MailError>)
      requires Valid()
      modifies `messagesById
      ensures Valid()
      ensures r.Err? <==> limit > 0 && given.Some? && IsBlank(given.value)
      ensures r.Err? ==> r.error == EmptyDeliveryId && Contents() == old(Contents())
      ensures r.Ok? ==>
                var batch, name := Batch(old(Contents()), recipient, limit), Naming(given, derive);
                && Contents() == Mailboxes.Claim(old(Contents()), recipient, limit, name, at)
                && |r.value| == |batch|
                && forall i :: 0 <= i < |batch| ==> r.value[i] == Delivery(batch[i], name(batch[i]), at)
    {
      if limit == 0 {
        assert Batch(Contents(), recipient, limit) == [];
        return Ok([]);
      }
      if given.Some? && IsBlank(given.value) {
        return Err(EmptyDeliveryId);
      }
      var delivered := DeliverBatch(recipient, limit, Naming(given, derive), at);
      return Ok(delivered);
    }

    /** Delivers the batch message by message, and returns the delivered copies in order. */
    method DeliverBatch(recipient: string, limit: nat, name: Message -> string, at: int)
        returns (delivered: seq<Message>)
      requires Valid()
      modifies `messagesById
      ensures Valid()
      ensures Contents() == Mailboxes.Claim(old(Contents()), recipient, limit, name, at)
      ensures var batch := Batch(old(Contents()), recipient, limit);
              && |delivered| == |batch|
              && forall i :: 0 <= i < |batch| ==> delivered[i] == Delivery(batch[i], name(batch[i]), at)
    {
      hide Sound, Batch, Deliver;
      ClaimSound(Contents(), recipient, limit, name, at);
      var queued := Batch(Box(runId, nextSequence, messagesById, idempotentMessageIds), recipient, limit);
      ghost var before := messagesById;
      delivered := [];
      DeliverStep(before, queued, name, at, 0);
      for i := 0 to |queued|
        invariant |delivered| == i && forall j :: 0 <= j < i ==>
            delivered[j] == Delivery(queued[j], name(queued[j]), at)
        invariant messagesById == Deliver(before, queued[..i], name, at)
      {
        var message := queued[i];
        var copy := message.(status := Delivered, attempts := message.attempts + 1, deliveryId := Some(name(message)),
                             deliveredAt := Some(at));
        DeliverStep(before, queued, name, at, i);
        messagesById := messagesById[copy.id := copy];
        delivered := delivered + [copy];
      }
      assert queued[..|queued|] == queued;
    }

    method Acknowledge(id: string, recipient: string, deliveryId: Option<string>)
        returns (r: Result<Message, MailError>)
      requires Valid()
      modifies `messagesById
      ensures var spec := Mailboxes.Acknowledge(old(Contents()), id, recipient, deliveryId);
              if spec.Ok? then Contents() == spec.value && id in messagesById && r == Ok(messagesById[id])
              else r == Err(spec.error) && Contents() == old(Contents())
    {
      hide Sound;
      if id !in messagesById {
        return Err(UnknownMessage);
      }
      var current := messagesById[id];
      if current.recipient != recipient {
        return Err(WrongRecipient);
      }
      if current.status == Acknowledged {
        return Ok(current);
      }
      if current.status != Delivered {
        return Err(NotDelivered);
      }
      if deliveryId.Some? && current.deliveryId != deliveryId {
        return Err(StaleDelivery);
      }
      messagesById := messagesById[id := current.(status := Acknowledged)];
      return Ok(messagesById[id]);
    }

    method Requeue(id: string, recipient: string, deliveryId: Option<string>) returns (r: Result<Message, MailError>)
      requires Valid()
      modifies `messagesById
      ensures var spec := Mailboxes.Requeue(old(Contents()), id, recipient, deliveryId);
              if spec.Ok? then Contents() == spec.value && id in messagesById && r == Ok(messagesById[id])
              else r == Err(spec.error) && Contents() == old(Contents())
    {
      hide Sound;
      if id !in messagesById {
        return Err(UnknownMessage);
      }
      var current := messagesById[id];
      if current.recipient != recipient {
        return Err(WrongRecipient);
      }
      if current.status != Delivered {
        return Err(NotDelivered);
      }
      if deliveryId.Some? && current.deliveryId != deliveryId {
        return Err(StaleDelivery);
      }
      messagesById := messagesById[id := current.(status := Queued)];
      return Ok(messagesById[id]);
    }

    method Cancel(id: string) returns (r: Result<Message, MailError>)
      requires Valid()
      modifies `messagesById
      ensures var spec := Mailboxes.Cancel(old(Contents()), id);
              if spec.Ok? then Contents() == spec.value && id in messagesById && r == Ok(messagesById[id])
              else r == Err(spec.error) && Contents() == old(Contents())
    {
      hide Sound;
      if id !in messagesById {
        return Err(UnknownMessage);
      }
      var current := messagesById[id];
      if current.status == Cancelled {
        return Ok(current);
      }
      if current.status == Acknowledged {
        return Err(AlreadyAcknowledged);
      }
      messagesById := messagesById[id := current.(status := Cancelled)];
      return Ok(messagesById[id]);
    }
  }

  lemma DeliverStep(messages: Messages, batch: seq<Message>, name: Message -> string, at: int, i: nat)
    requires i <= |batch|
    ensures Deliver(messages, [], name, at) == messages
    ensures i < |batch| ==>
              Deliver(messages, batch[..i + 1], name, at)
              == Deliver(messages, batch[..i], name, at)[batch[i].id := Delivery(batch[i], name(batch[i]), at)]
  {
    if i < |batch| {
      assert batch[..i + 1][..i] == batch[..i];
    }
  }

  lemma FiledIsThere(b: Box, k: (string, string))
    requires Sound(b) && k in b.index
    ensures b.index[k] in b.messages
  {
    assert EntryOk(b, k);
  }

  // ----- Snapshots -----

  predicate RestorableMessage(s: Snapshot, m: Message)
  {
    m.runId == s.runId && 1 <= m.sequence && (m.status == Delivered ==> m.deliveredAt.Some?)
  }

  predicate Apart(m: Message, other: Message)
  {
    && m.id != other.id && m.sequence != other.sequence
    && !(m.key.Some? && m.key == other.key && m.recipient == other.recipient)
  }

  predicate RestorableList(s: Snapshot, list: seq<Message>)
  {
    && (forall i :: 0 <= i < |list| ==> RestorableMessage(s, list[i]))
    && (forall i, j :: 0 <= i < j < |list| ==> Apart(list[i], list[j]))
  }

  /** The constructor accepts the snapshot. */
  predicate Restorable(s: Snapshot)
  {
    s.nextSequence >= 1 && RestorableList(s, s.messages)
    && forall i :: 0 <= i < |s.messages| ==> s.messages[i].sequence < s.nextSequence
  }

  function MessageMap(list: seq<Message>): Messages
  {
    if list == [] then map[]
    else MessageMap(list[..|list| - 1])[list[|list| - 1].id := list[|list| - 1]]
  }

  function KeyMap(list: seq<Message>): Index
  {
    if list == [] then map[]
    else
      var m := list[|list| - 1];
      var rest := KeyMap(list[..|list| - 1]);
      if m.key.Some? then rest[(m.recipient, m.key.value) := m.id] else rest
  }

  lemma {:induction false} MapsHold(list: seq<Message>)
    ensures forall id :: id in MessageMap(list) <==> exists i :: 0 <= i < |list| && list[i].id == id
    ensures forall k :: k in KeyMap(list) <==>
              exists i :: 0 <= i < |list| && list[i].key == Some(k.1) && list[i].recipient == k.0
  {
    if list != [] {
      var n := |list| - 1;
      var front := list[..n];
      MapsHold(front);
      hide MessageMap, KeyMap;
      MapsStep(list);
      forall id ensures id in MessageMap(list) <==> exists i :: 0 <= i < |list| && list[i].id == id {
        if i :| 0 <= i < |list| && list[i].id == id && i < n {
          assert front[i].id == id;
        }
        if i :| 0 <= i < n && front[i].id == id {
          assert list[i].id == id;
        }
      }
      forall k ensures k in KeyMap(list) <==>
                       exists i :: 0 <= i < |list| && list[i].key == Some(k.1) && list[i].recipient == k.0
      {
        if i :| 0 <= i < |list| && list[i].key == Some(k.1) && list[i].recipient == k.0 && i < n {
          assert front[i].key == Some(k.1) && front[i].recipient == k.0;
        }
        if i :| 0 <= i < n && front[i].key == Some(k.1) && front[i].recipient == k.0 {
          assert list[i].key == Some(k.1) && list[i].recipient == k.0;
        }
      }
    }
  }

  lemma MapsStep(list: seq<Message>)
    requires list != []
    ensures var n := |list| - 1;
            && MessageMap(list) == MessageMap(list[..n])[list[n].id := list[n]]
            && KeyMap(list) == if list[n].key.Some? then
                KeyMap(list[..n])[(list[n].recipient, list[n].key.value) := list[n].id]
                               else KeyMap(list[..n])
  {
  }

  /** In a list of messages that are apart, each is found under its id and its key. */
  lemma {:induction false} MapsFind(list: seq<Message>, i: nat)
    requires i < |list| && forall j, k :: 0 <= j < k < |list| ==> Apart(list[j], list[k])
    ensures list[i].id in MessageMap(list) && MessageMap(list)[list[i].id] == list[i]
    ensures list[i].key.Some? ==>
              var k := (list[i].recipient, list[i].key.value);
              k in KeyMap(list) && KeyMap(list)[k] == list[i].id
    decreases |list|
  {
    var n := |list| - 1;
    if i < n {
      var front := list[..n];
      MapsFind(front, i);
      assert Apart(list[i], list[n]);
    }
  }

  lemma ApartEitherWay(list: seq<Message>, i: int, j: int)
    requires 0 <= i < |list| && 0 <= j < |list| && forall k, l :: 0 <= k < l < |list| ==> Apart(list[k], list[l])
    ensures i != j ==> list[i].id != list[j].id && list[i].sequence != list[j].sequence
  {
    if i < j {
      assert Apart(list[i], list[j]);
    } else if j < i {
      assert Apart(list[j], list[i]);
    }
  }

  /** What the constructor builds from a list it accepts is a sound mailbox. */
  lemma RestoredSound(s: Snapshot)
    requires Restorable(s)
    ensures Sound(Box(s.runId, s.nextSequence, MessageMap(s.messages), KeyMap(s.messages)))
  {
    var b := Box(s.runId, s.nextSequence, MessageMap(s.messages), KeyMap(s.messages));
    MapsHold(s.messages);
    forall i | 0 <= i < |s.messages|
      ensures b.messages[s.messages[i].id] == s.messages[i] && MessageOk(b, s.messages[i].id)
      ensures s.messages[i].key.Some? ==>
          b.index[(s.messages[i].recipient, s.messages[i].key.value)] == s.messages[i].id
    {
      MapsFind(s.messages, i);
      assert RestorableMessage(s, s.messages[i]);
    }
    hide MessageMap, KeyMap, MessageOk;
    forall x, y | x in b.messages && y in b.messages && b.messages[x].sequence == b.messages[y].sequence
        ensures x == y {
      var i :| 0 <= i < |s.messages| && s.messages[i].id == x;
      var j :| 0 <= j < |s.messages| && s.messages[j].id == y;
      ApartEitherWay(s.messages, i, j);
    }
    forall k | k in b.index ensures EntryOk(b, k) {
      var i :| 0 <= i < |s.messages| && s.messages[i].key == Some(k.1) && s.messages[i].recipient == k.0;
    }
  }

  /** The messages one by one, until one cannot stand beside those before it. */
  method ReadMessages(s: Snapshot) returns (ok: bool, messages: Messages, index: Index, maximum: nat)
    ensures ok <==> RestorableList(s, s.messages)
    ensures ok ==> messages == MessageMap(s.messages) && index == KeyMap(s.messages)
    ensures ok ==> (forall i :: 0 <= i < |s.messages| ==> s.messages[i].sequence <= maximum)
                   && (maximum > 0 ==> exists i :: 0 <= i < |s.messages| && s.messages[i].sequence == maximum)
  {
    messages, index, maximum := map[], map[], 0;
    var list, seen := s.messages, {};
    for i := 0 to |list|
      invariant RestorableList(s, list[..i]) && messages == MessageMap(list[..i]) && index == KeyMap(list[..i])
      invariant forall q :: q in seen <==> exists j :: 0 <= j < i && list[j].sequence == q
      invariant forall j :: 0 <= j < i ==> list[j].sequence <= maximum
      invariant maximum > 0 ==> exists j :: 0 <= j < i && list[j].sequence == maximum
    {
      hide RestorableList, MessageMap, KeyMap, RestorableMessage;
      var m := list[i];
      if !RestorableMessage(s, m) || m.id in messages || m.sequence in seen
         || (m.key.Some? && (m.recipient, m.key.value) in index) {
        NextRefused(s, i);
        return false, messages, index, maximum;
      }
      NextAccepted(s, i);
      seen := seen + {m.sequence};
      if m.sequence > maximum {
        maximum := m.sequence;
      }
      messages := messages[m.id := m];
      if m.key.Some? {
        index := index[(m.recipient, m.key.value) := m.id];
      }
    }
    assert list[..|list|] == list;
    return true, messages, index, maximum;
  }

  /** The constructor refuses exactly the snapshots that are not restorable. */
  method Restore(s: Snapshot) returns (mailbox: AgentMailbox, ok: bool)
    ensures fresh(mailbox)
    ensures ok <==> Restorable(s)
    ensures ok ==> mailbox.Valid()
                   && mailbox.Contents() == Box(s.runId, s.nextSequence, MessageMap(s.messages), KeyMap(s.messages))
  {
    mailbox := new AgentMailbox(s.runId);
    if s.nextSequence < 1 {
      return mailbox, false;
    }
    var messages, index, maximum;
    ok, messages, index, maximum := ReadMessages(s);
    hide RestorableList, MessageMap, KeyMap, Sound;
    if !ok || s.nextSequence <= maximum {
      return mailbox, false;
    }
    RestoredSound(s);
    mailbox.nextSequence, mailbox.messagesById, mailbox.idempotentMessageIds := s.nextSequence, messages, index;
    return mailbox, true;
  }

  lemma NextRefused(s: Snapshot, i: nat)
    requires i < |s.messages|
    requires var m := s.messages[i];
             || !RestorableMessage(s, m) || m.id in MessageMap(s.messages[..i])
             || (exists j :: 0 <= j < i && s.messages[j].sequence == m.sequence)
             || (m.key.Some? && (m.recipient, m.key.value) in KeyMap(s.messages[..i]))
    ensures !RestorableList(s, s.messages)
  {
    MapsHold(s.messages[..i]);
  }

  lemma NextAccepted(s: Snapshot, i: nat)
    requires i < |s.messages| && RestorableList(s, s.messages[..i])
    requires var m := s.messages[i];
             && RestorableMessage(s, m) && m.id !in MessageMap(s.messages[..i])
             && (forall j :: 0 <= j < i ==> s.messages[j].sequence != m.sequence)
             && (m.key.Some? ==> (m.recipient, m.key.value) !in KeyMap(s.messages[..i]))
    ensures RestorableList(s, s.messages[..i + 1])
    ensures var m, list := s.messages[i], s.messages;
            && MessageMap(list[..i + 1]) == MessageMap(list[..i])[m.id := m]
            && KeyMap(list[..i + 1]) == if m.key.Some? then KeyMap(list[..i])[(m.recipient, m.key.value) := m.id]
                                        else KeyMap(list[..i])
  {
    MapsHold(s.messages[..i]);
    assert s.messages[..i + 1][..i] == s.messages[..i];
    MapsStep(s.messages[..i + 1]);
    hide MessageMap, KeyMap;
  }

  /** `snapshot`: the messages in order of sequence. */
  function SnapshotOf(b: Box): Snapshot
    requires Sound(b)
  {
    Snapshot(b.runId, b.nextSequence, All(b))
  }

  predicate IsListOf(b: Box, list: seq<Message>)
  {
    && (forall i :: 0 <= i < |list| ==> list[i].id in b.messages && b.messages[list[i].id] == list[i])
    && (forall i, j :: 0 <= i < j < |list| ==> list[i].sequence < list[j].sequence)
    && (forall id :: id in b.messages ==> b.messages[id] in list)
  }

  lemma ListsAll(b: Box)
    requires Sound(b)
    ensures IsListOf(b, All(b))
  {
    var list := All(b);
    forall m ensures m in list <==> m.id in b.messages && b.messages[m.id] == m {
      ListedIff(b.messages, 0, b.nextSequence, Everything, m);
      if id :| id in b.messages && b.messages[id] == m {
        assert MessageOk(b, id);
      }
    }
    assert forall id :: id in b.messages ==> MessageOk(b, id);
    hide MessageOk, ListFrom;
    assert forall i :: 0 <= i < |list| ==> list[i] in list;
    assert forall id :: id in b.messages ==> b.messages[id].id == id by {
      assert forall id :: id in b.messages ==> MessageOk(b, id);
    }
  }

  lemma SnapshotIsRestorable(b: Box, list: seq<Message>)
    requires Sound(b) && IsListOf(b, list)
    ensures Restorable(Snapshot(b.runId, b.nextSequence, list))
  {
    var s := Snapshot(b.runId, b.nextSequence, list);
    forall i | 0 <= i < |list| ensures RestorableMessage(s, list[i]) && list[i].sequence < b.nextSequence {
      assert MessageOk(b, list[i].id);
    }
    forall i, j | 0 <= i < j < |list| ensures Apart(list[i], list[j]) {
      assert MessageOk(b, list[i].id) && MessageOk(b, list[j].id);
    }
  }

  lemma ListFinds(b: Box, list: seq<Message>)
    requires Sound(b) && IsListOf(b, list)
    ensures forall i :: 0 <= i < |list| ==> list[i].id in MessageMap(list) && MessageMap(list)[list[i].id] == list[i]
    ensures forall i :: 0 <= i < |list| && list[i].key.Some? ==>
              var k := (list[i].recipient, list[i].key.value); k in KeyMap(list) && KeyMap(list)[k] == list[i].id
  {
    SnapshotIsRestorable(b, list);
    hide MessageMap, KeyMap;
    forall i | 0 <= i < |list|
      ensures list[i].id in MessageMap(list) && MessageMap(list)[list[i].id] == list[i]
      ensures list[i].key.Some? ==>
                var k := (list[i].recipient, list[i].key.value); k in KeyMap(list) && KeyMap(list)[k] == list[i].id
    {
      MapsFind(list, i);
    }
  }

  lemma SnapshotMessages(b: Box, list: seq<Message>)
    requires Sound(b) && IsListOf(b, list)
    ensures MessageMap(list) == b.messages
  {
    hide MessageMap, KeyMap;
    MapsHold(list);
    ListFinds(b, list);
    forall id | id in b.messages ensures id in MessageMap(list) && MessageMap(list)[id] == b.messages[id] {
      var i :| 0 <= i < |list| && list[i] == b.messages[id];
      assert MessageOk(b, id);
    }
    hide Sound;
  }

  lemma SnapshotHasKey(b: Box, list: seq<Message>, k: (string, string))
    requires Sound(b) && IsListOf(b, list) && k in b.index
    ensures k in KeyMap(list) && KeyMap(list)[k] == b.index[k]
  {
    hide MessageMap, KeyMap;
    ListFinds(b, list);
    assert EntryOk(b, k) && MessageOk(b, b.index[k]);
    hide Sound;
    var i :| 0 <= i < |list| && list[i] == b.messages[b.index[k]];
  }

  lemma SnapshotKeys(b: Box, list: seq<Message>)
    requires Sound(b) && IsListOf(b, list)
    ensures KeyMap(list) == b.index
  {
    hide MessageMap, KeyMap, MessageOk;
    MapsHold(list);
    forall k | k in b.index ensures k in KeyMap(list) && KeyMap(list)[k] == b.index[k] {
      SnapshotHasKey(b, list, k);
    }
    forall k | k in KeyMap(list) ensures k in b.index {
      var i :| 0 <= i < |list| && list[i].key == Some(k.1) && list[i].recipient == k.0;
      KeyedIsFiled(b, list[i].id);
    }
    hide Sound, IsListOf;
  }

  lemma KeyedIsFiled(b: Box, id: string)
    requires Sound(b) && id in b.messages && b.messages[id].key.Some?
    ensures (b.messages[id].recipient, b.messages[id].key.value) in b.index
  {
    assert MessageOk(b, id);
  }

  /** Every snapshot of a mailbox restores, and restores that mailbox. */
  lemma SnapshotRestores(b: Box)
    requires Sound(b)
    ensures var s := SnapshotOf(b);
            Restorable(s) && Box(s.runId, s.nextSequence, MessageMap(s.messages), KeyMap(s.messages)) == b
  {
    hide MessageMap, KeyMap;
    ListsAll(b);
    SnapshotIsRestorable(b, All(b));
    SnapshotMessages(b, All(b));
    SnapshotKeys(b, All(b));
  }
}
