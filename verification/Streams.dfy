/** The event stream of a Run: what a client that keeps reconnecting receives. */
module Streams {
  import opened Outcomes
  import opened Tables
  import opened Store
  import opened Journals
  import Histories

  /** `listEvents`: the events after a sequence, in order. */
  function ListEvents(journal: seq<Event>, after: nat): seq<Event>
  {
    if journal == [] then []
    else
      var n := |journal| - 1;
      ListEvents(journal[..n], after) + (if journal[n].sequence > after then [journal[n]] else [])
  }

  lemma {:induction false} ListedFrom(journal: seq<Event>, after: nat)
    requires Numbered(journal, |journal|)
    ensures ListEvents(journal, after) == if after <= |journal| then journal[after..] else []
    decreases |journal|
  {
    if journal != [] {
      var n := |journal| - 1;
      var front, last := journal[..n], journal[n];
      assert last.sequence == n + 1 && journal == front + [last];
      ListedFrom(front, after);
      hide Numbered;
      if after <= n {
        assert journal[after..] == front[after..] + [last];
      }
    }
  }

  /** One connection: `streamEvents` between its response head and its close. */
  class EventStream {
    var sequence: nat
    var written: seq<Event>

    constructor (after: nat)
      ensures sequence == after && written == []
    {
      sequence, written := after, [];
    }

    /** `publish`: writes each listed event and advances the cursor with it. */
    method Publish(journal: seq<Event>)
      requires Numbered(journal, |journal|)
      modifies this
      ensures written == old(written) + ListEvents(journal, old(sequence))
      ensures sequence == if old(sequence) <= |journal| then |journal| else old(sequence)
    {
      var events := ListEvents(journal, sequence);
      ListedFrom(journal, sequence);
      ghost var start := sequence;
      for i := 0 to |events|
        invariant written == old(written) + events[..i]
        invariant sequence == start + i
      {
        assert events[i] == journal[start + i];
        written := written + [events[i]];
        sequence := events[i].sequence;
      }
    }
  }

  /** The client's view: what it has, and the server's cursor for its connection, if it has one. */
  datatype Session = Session(received: seq<Event>, cursor: Option<nat>)

  /** Transactions of any process; a publish of which the first `arriving` events reach the client, the connection
      being lost unless all do; and a reconnection. */
  datatype StreamStep = Transact(entry: Entry) | PublishTo(arriving: nat) | Reconnect

  datatype World = World(db: Database, session: Session)

  /** A reconnecting client sends the sequence of the last event it has; the URL still names where it began. */
  function Resume(session: Session, first: nat): nat
  {
    var last := if session.received == [] then 0 else session.received[|session.received| - 1].sequence;
    if last < first then first else last
  }

  function StreamNext(w: World, r: RunId, first: nat, step: StreamStep): World
  {
    match step
    case Transact(e) => w.(db := Next(w.db, e))
    case Reconnect => w.(session := w.session.(cursor := Some(Resume(w.session, first))))
    case PublishTo(arriving) =>
      if w.session.cursor.None? then w
      else
        var cursor := w.session.cursor.value;
        var journal := Journal(w.db, r);
        var events := ListEvents(journal, cursor);
        if arriving < |events| then w.(session := Session(w.session.received + events[..arriving], None))
        else w.(session := Session(w.session.received + events,
                                   Some(if cursor <= |journal| then |journal| else cursor)))
  }

  function StreamPlay(w: World, r: RunId, first: nat, steps: seq<StreamStep>): World
  {
    if steps == [] then w
    else StreamNext(StreamPlay(w, r, first, steps[..|steps| - 1]), r, first, steps[|steps| - 1])
  }

  /** The client has the events after `first` up to some point, and its connection goes on from there. */
  predicate InStep(w: World, r: RunId, first: nat)
  {
    var journal, n := Journal(w.db, r), |w.session.received|;
    && Numbered(journal, |journal|)
    && (n > 0 ==> first + n <= |journal| && w.session.received == journal[first..first + n])
    && (w.session.cursor.Some? ==> w.session.cursor.value == first + n)
  }

  lemma StreamStaysInStep(w: World, r: RunId, first: nat, step: StreamStep)
    requires InStep(w, r, first) && FaithfulFor(w.db, r)
    ensures InStep(StreamNext(w, r, first, step), r, first) && FaithfulFor(StreamNext(w, r, first, step).db, r)
  {
    hide FaithfulFor;
    match step
    case Transact(e) =>
      hide Next, InStep;
      Histories.StepKeeps(w.db, e);
      assert Histories.ProposalKeepsRun(w.db, Next(w.db, e), e.op, r);
      GrownJournal(w, Next(w.db, e), r, first);
    case Reconnect =>
      hide Journal;
    case PublishTo(arriving) => PublishStaysInStep(w, r, first, arriving);
  }

  lemma PublishStaysInStep(w: World, r: RunId, first: nat, arriving: nat)
    requires InStep(w, r, first)
    ensures InStep(StreamNext(w, r, first, PublishTo(arriving)), r, first)
  {
    hide Journal, Next;
    if w.session.cursor.Some? {
      PublishedStretch(Journal(w.db, r), first, w.session.received, arriving);
      hide ListEvents, Numbered;
    }
  }

  lemma JoinStretch(journal: seq<Event>, a: nat, b: nat, c: nat)
    requires a <= b <= c <= |journal|
    ensures journal[a..b] + journal[b..c] == journal[a..c]
  {
  }

  /** What a publish adds to a stretch of the journal makes a longer stretch of it. */
  lemma PublishedStretch(journal: seq<Event>, first: nat, received: seq<Event>, arriving: nat)
    requires Numbered(journal, |journal|)
    requires |received| > 0 ==> first + |received| <= |journal| && received == journal[first..first + |received|]
    ensures var events, n := ListEvents(journal, first + |received|), |received|;
            && (events != [] ==> first + n + |events| == |journal|)
            && (events == [] ==> first + n >= |journal|)
            && (arriving < |events| ==> received + events[..arriving] == journal[first..first + n + arriving])
            && (events != [] ==> received + events == journal[first..first + n + |events|])
  {
    var b := first + |received|;
    ListedFrom(journal, b);
    hide ListEvents, Numbered;
    if b < |journal| {
      var events := journal[b..];
      assert received == journal[first..b];
      JoinStretch(journal, first, b, |journal|);
      assert journal[b..|journal|] == events;
      if arriving < |events| {
        assert events[..arriving] == journal[b..b + arriving];
        JoinStretch(journal, first, b, b + arriving);
      }
    }
  }

  lemma WholeStretch(journal: seq<Event>, first: nat, received: seq<Event>)
    requires Numbered(journal, |journal|)
    requires |received| > 0 ==> first + |received| <= |journal| && received == journal[first..first + |received|]
    ensures var events := ListEvents(journal, first + |received|);
            |events| <= |journal| && received + events == if first <= |journal| then journal[first..] else []
  {
    ListedFrom(journal, first + |received|);
    hide ListEvents, Numbered;
    if first + |received| <= |journal| {
      assert received == journal[first..first + |received|];
      JoinStretch(journal, first, first + |received|, |journal|);
    }
  }

  lemma GrownJournal(w: World, next: Database, r: RunId, first: nat)
    requires InStep(w, r, first) && FaithfulFor(w.db, r) && Moves(w.db, next, r)
    ensures InStep(w.(db := next), r, first)
  {
    hide Replay;
    if r !in w.db.runs {
      assert Journal(w.db, r) == [];
    }
  }

  /** However appends, publishes, losses and reconnections interleave, the client receives each event exactly once
      and in order: what it has is always a stretch of the journal that begins where it asked. */
  lemma {:induction false} EachEventOnceInOrder(r: RunId, first: nat, steps: seq<StreamStep>)
    ensures var w := StreamPlay(World(EMPTY_DATABASE, Session([], None)), r, first, steps);
            InStep(w, r, first) && FaithfulFor(w.db, r)
    decreases |steps|
  {
    if steps != [] {
      var start := World(EMPTY_DATABASE, Session([], None));
      var n := |steps| - 1;
      EachEventOnceInOrder(r, first, steps[..n]);
      hide StreamNext, InStep, FaithfulFor;
      StreamStaysInStep(StreamPlay(start, r, first, steps[..n]), r, first, steps[n]);
    }
  }

  /** After a whole publish on a live connection the client is missing nothing. */
  lemma CaughtUp(w: World, r: RunId, first: nat, arriving: nat)
    requires InStep(w, r, first) && w.session.cursor.Some? && arriving >= |Journal(w.db, r)|
    ensures var journal := Journal(w.db, r);
            StreamNext(w, r, first, PublishTo(arriving)).session.received
            == if first <= |journal| then journal[first..] else []
  {
    hide Journal, ListEvents, Numbered, StreamNext;
    WholeStretch(Journal(w.db, r), first, w.session.received);
    PublishedWhole(w, r, first, arriving);
  }

  lemma PublishedWhole(w: World, r: RunId, first: nat, arriving: nat)
    requires w.session.cursor.Some? && |ListEvents(Journal(w.db, r), w.session.cursor.value)| <= arriving
    ensures StreamNext(w, r, first, PublishTo(arriving)).session.received
         == w.session.received + ListEvents(Journal(w.db, r), w.session.cursor.value)
  {
    hide Journal, ListEvents, Next;
  }
}
