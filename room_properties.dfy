/**
 * Properties of the room's loop over whole event sequences: membership
 * counts, what each client's `send` channel ends up holding, the order of
 * delivery, and the lifecycle discipline of connections.
 */
module RoomProperties {
  import opened ChatRoom

  /** The loop handled every event of es, starting from s, without blocking. */
  predicate HandledAll(s: State, es: seq<Event>) {
    Consistent(s) && Replay(s, es).handled == |es|
  }

  // ---------------------------------------------------------------------------
  // Joins and the size of the membership set
  // ---------------------------------------------------------------------------

  /** The distinct clients in ids. */
  function Elements(ids: seq<ClientId>): set<ClientId>
    decreases |ids|
  {
    if ids == [] then {} else {ids[0]} + Elements(ids[1..])
  }

  /** The distinct clients of ids are the clients that occur in it. */
  lemma {:induction false} InElements(ids: seq<ClientId>, x: ClientId)
    ensures x in Elements(ids) <==> x in ids
    decreases |ids|
  {
    if ids != [] {
      InElements(ids[1..], x);
      assert x in ids <==> x == ids[0] || x in ids[1..];
    }
  }

  /** The join requests for the clients ids, in order. */
  function Joins(ids: seq<ClientId>): seq<Event>
    decreases |ids|
  {
    if ids == [] then [] else [Join(ids[0])] + Joins(ids[1..])
  }

  /** The first join of a list, handled by the loop. */
  lemma JoinsUnfold(s: State, ids: seq<ClientId>)
    requires Consistent(s) && ids != [] && CanJoin(s, ids[0])
    ensures Replay(s, Joins(ids))
         == var r := Replay(JoinStep(s, ids[0]), Joins(ids[1..])); Progress(r.state, r.handled + 1)
  {
    var es := Joins(ids);
    assert es[0] == Join(ids[0]) && es[1..] == Joins(ids[1..]);
    ReplayUnfold(s, es);
  }

  /** Joins alone never block, and they add exactly the joined clients to the members. */
  lemma {:induction false} JoinsReplay(s: State, ids: seq<ClientId>)
    requires Consistent(s)
    requires forall i :: 0 <= i < |ids| ==> CanJoin(s, ids[i])
    ensures Replay(s, Joins(ids)).handled == |ids|
    ensures forall x :: x in Replay(s, Joins(ids)).state.members <==> x in s.members || x in ids
    decreases |ids|
  {
    if ids == [] {
      assert Joins(ids) == [];
    } else {
      var s' := JoinStep(s, ids[0]);
      forall i | 0 <= i < |ids[1..]|
        ensures CanJoin(s', ids[1..][i])
      {
        assert ids[1..][i] == ids[i + 1];
        assert CanJoin(s, ids[i + 1]);
      }
      JoinsReplay(s', ids[1..]);
      JoinsUnfold(s, ids);
    }
  }

  /** A sequence without repetitions has as many distinct elements as it is long. */
  lemma {:induction false} DistinctCount(ids: seq<ClientId>)
    requires forall i, j :: 0 <= i < j < |ids| ==> ids[i] != ids[j]
    ensures |Elements(ids)| == |ids|
    decreases |ids|
  {
    if ids != [] {
      forall i, j | 0 <= i < j < |ids[1..]|
        ensures ids[1..][i] != ids[1..][j]
      {
        assert ids[1..][i] == ids[i + 1] && ids[1..][j] == ids[j + 1];
      }
      DistinctCount(ids[1..]);
      forall k | 0 <= k < |ids[1..]|
        ensures ids[1..][k] != ids[0]
      {
        assert ids[1..][k] == ids[k + 1];
      }
      var rest := Elements(ids[1..]);
      InElements(ids[1..], ids[0]);
      assert ids[0] !in rest;
      assert Elements(ids) == rest + {ids[0]};
      assert |rest + {ids[0]}| == |rest| + 1;
    }
  }

  /**
   * Joins into a new room: the members are exactly the joined clients, so a
   * client joining twice is counted once.
   */
  lemma JoinsIntoNewRoom(ids: seq<ClientId>)
    ensures Replay(NewRoom(), Joins(ids)).handled == |ids|
    ensures Replay(NewRoom(), Joins(ids)).state.members == Elements(ids)
  {
    JoinsReplay(NewRoom(), ids);
    forall x
      ensures x in Replay(NewRoom(), Joins(ids)).state.members <==> x in Elements(ids)
    {
      InElements(ids, x);
    }
  }

  /** N joins of distinct clients into a new room give N members. */
  lemma DistinctJoinsCount(ids: seq<ClientId>)
    requires forall i, j :: 0 <= i < j < |ids| ==> ids[i] != ids[j]
    ensures Replay(NewRoom(), Joins(ids)).handled == |ids|
    ensures |Replay(NewRoom(), Joins(ids)).state.members| == |ids|
  {
    JoinsIntoNewRoom(ids);
    DistinctCount(ids);
  }

  // ---------------------------------------------------------------------------
  // What each client receives, read off the event log
  // ---------------------------------------------------------------------------

  /** Whether c is a member after e, given whether it was before. */
  function MemberNext(member: bool, e: Event, c: ClientId): bool {
    match e
    case Join(d) => member || d == c
    case Leave(d) => member && d != c
    case Forward(_) => member
  }

  /** Whether c is a member after es, given whether it was before. */
  function MemberAfter(member: bool, es: seq<Event>, c: ClientId): bool
    decreases |es|
  {
    if es == [] then member else MemberAfter(MemberNext(member, es[0], c), es[1..], c)
  }

  /**
   * The messages c is sent while es is handled: the message of every forward
   * that happens while c is a member, in the order of the log.
   */
  function Inbox(member: bool, es: seq<Event>, c: ClientId): seq<Message>
    decreases |es|
  {
    if es == [] then []
    else
      (if member && es[0].Forward? then [es[0].msg] else [])
      + Inbox(MemberNext(member, es[0], c), es[1..], c)
  }

  /** One event, seen by one client. */
  lemma StepForClient(s: State, e: Event, c: ClientId)
    requires Consistent(s) && Admits(s, e) && Ready(s, e)
    ensures (c in Step(s, e).members) == MemberNext(c in s.members, e, c)
    ensures Queue(Step(s, e), c) == Queue(s, c) + (if c in s.members && e.Forward? then [e.msg] else [])
  {
  }

  /**
   * Delivery: after the loop has handled es, every client's channel holds what
   * it held before followed by exactly the messages forwarded while it was a
   * member, in the order they were forwarded.
   */
  lemma {:induction false} DeliveredIsInbox(s: State, es: seq<Event>, c: ClientId)
    requires HandledAll(s, es)
    ensures Queue(Replay(s, es).state, c) == Queue(s, c) + Inbox(c in s.members, es, c)
    decreases |es|
  {
    if es != [] {
      ReplayUnfold(s, es);
      var s' := Step(s, es[0]);
      DeliveredIsInbox(s', es[1..], c);
      StepForClient(s, es[0], c);
      InboxUnfold(Queue(s, c), c in s.members, es, c, Queue(s', c), c in s'.members);
    }
  }

  /** The first event of es, as c's channel and Inbox see it. */
  lemma InboxUnfold(q: seq<Message>, member: bool, es: seq<Event>, c: ClientId, q': seq<Message>, member': bool)
    requires es != [] && member' == MemberNext(member, es[0], c)
    requires q' == q + (if member && es[0].Forward? then [es[0].msg] else [])
    ensures q + Inbox(member, es, c) == q' + Inbox(member', es[1..], c)
  {
    var d := if member && es[0].Forward? then [es[0].msg] else [];
    var rest := Inbox(member', es[1..], c);
    assert Inbox(member, es, c) == d + rest;
    assert q + (d + rest) == (q + d) + rest;
  }

  /** After the loop has handled es, c is a member exactly when the log says so. */
  lemma {:induction false} MembershipFollowsLog(s: State, es: seq<Event>, c: ClientId)
    requires HandledAll(s, es)
    ensures (c in Replay(s, es).state.members) == MemberAfter(c in s.members, es, c)
    decreases |es|
  {
    if es != [] {
      ReplayUnfold(s, es);
      var s' := Step(s, es[0]);
      MembershipFollowsLog(s', es[1..], c);
      StepForClient(s, es[0], c);
    }
  }

  // ---------------------------------------------------------------------------
  // The state before each event
  // ---------------------------------------------------------------------------

  /** Handling a prefix of es, then the rest, is handling es. */
  lemma {:induction false} ReplaySplit(s: State, es: seq<Event>, k: nat)
    requires HandledAll(s, es) && k <= |es|
    ensures Replay(s, es[..k]).handled == k
    ensures Replay(Replay(s, es[..k]).state, es[k..]).handled == |es| - k
    ensures Replay(Replay(s, es[..k]).state, es[k..]).state == Replay(s, es).state
    decreases k
  {
    if k == 0 {
      EmptyPrefix(es);
    } else {
      ReplayUnfold(s, es);
      var s' := Step(s, es[0]);
      ReplaySplit(s', es[1..], k - 1);
      TailSlices(es, k);
      ReplayUnfold(s, es[..k]);
    }
  }

  /**
   * Wherever the loop stops, the events before that point are a log it
   * handles in full, ending in the same state; so every property of fully
   * handled logs holds of the handled part of any log, one that stalls on a
   * full channel included.
   */
  lemma {:induction false} PrefixHandled(s: State, es: seq<Event>)
    requires Consistent(s)
    ensures HandledAll(s, es[..Replay(s, es).handled])
    ensures Replay(s, es[..Replay(s, es).handled]).state == Replay(s, es).state
    decreases |es|
  {
    var k := Replay(s, es).handled;
    if k == 0 {
      EmptyPrefix(es);
      if es != [] {
        ReplayUnfold(s, es);
      }
    } else {
      ReplayUnfold(s, es);
      PrefixHandled(Step(s, es[0]), es[1..]);
      TailSlices(es, k);
      ReplayUnfold(s, es[..k]);
    }
  }

  /**
   * What a room has delivered wherever its loop stopped: c's channel holds
   * what it held before, followed by the message of every handled forward
   * that happened while c was a member, in log order.
   */
  lemma DeliveredUntilStop(s: State, es: seq<Event>, c: ClientId)
    requires Consistent(s)
    ensures Queue(Replay(s, es).state, c)
         == Queue(s, c) + Inbox(c in s.members, es[..Replay(s, es).handled], c)
  {
    PrefixHandled(s, es);
    DeliveredIsInbox(s, es[..Replay(s, es).handled], c);
  }

  /** The empty prefix of es, and the rest that is all of es. */
  lemma EmptyPrefix(es: seq<Event>)
    ensures es[..0] == [] && es[0..] == es
  {
  }

  /** Slices of a prefix es[..l] are slices of es. */
  lemma PrefixSlices(es: seq<Event>, k: nat, l: nat)
    requires k <= l <= |es|
    ensures es[..l][..k] == es[..k] && es[..l][k..] == es[k..l]
  {
  }

  /** The prefix es[..k], less its first event, is a prefix of es[1..]; the rest of es[1..] is es[k..]. */
  lemma TailSlices(es: seq<Event>, k: nat)
    requires 0 < k <= |es|
    ensures es[..k][0] == es[0] && es[1..][..k - 1] == es[..k][1..] && es[1..][k - 1..] == es[k..]
  {
  }

  /** The slice es[k..k + 1] is the event es[k] alone. */
  lemma SingleSlice(es: seq<Event>, k: nat)
    requires k < |es|
    ensures es[k..k + 1] == [es[k]]
  {
  }

  /** The room's state just before the loop handles es[k] (after all of es when k == |es|). */
  ghost function Before(s: State, es: seq<Event>, k: nat): (b: State)
    requires HandledAll(s, es) && k <= |es|
    ensures Consistent(b)
  {
    ReplaySplit(s, es, k);
    Replay(s, es[..k]).state
  }

  /** Before the first event the room is in its initial state, and after the last one in its final state. */
  lemma BeforeEnds(s: State, es: seq<Event>)
    requires HandledAll(s, es)
    ensures Before(s, es, 0) == s
    ensures Before(s, es, |es|) == Replay(s, es).state
  {
    assert es[..0] == [];
    assert es[..|es|] == es;
  }

  /** From the state before es[k] the rest of the log leads to the final state. */
  lemma RestFrom(s: State, es: seq<Event>, k: nat)
    requires HandledAll(s, es) && k <= |es|
    ensures HandledAll(Before(s, es, k), es[k..])
    ensures Replay(Before(s, es, k), es[k..]).state == Replay(s, es).state
  {
    ReplaySplit(s, es, k);
  }

  /** From the state before es[k] the events es[k..l] lead to the state before es[l]. */
  lemma Between(s: State, es: seq<Event>, k: nat, l: nat)
    requires HandledAll(s, es) && k <= l <= |es|
    ensures HandledAll(Before(s, es, k), es[k..l])
    ensures Replay(Before(s, es, k), es[k..l]).state == Before(s, es, l)
  {
    var t := es[..l];
    PrefixSlices(es, k, l);
    ReplaySplit(s, es, l);
    ReplaySplit(s, t, k);
  }

  /** The state before es[k + 1] is the state before es[k] with es[k] handled. */
  lemma StepAt(s: State, es: seq<Event>, k: nat)
    requires HandledAll(s, es) && k < |es|
    ensures Admits(Before(s, es, k), es[k]) && Ready(Before(s, es, k), es[k])
    ensures Before(s, es, k + 1) == Step(Before(s, es, k), es[k])
  {
    Between(s, es, k, k + 1);
    SingleSlice(es, k);
    ReplayUnfold(Before(s, es, k), [es[k]]);
  }

  /** A client's channel only grows: what it held before es[k] it still holds, first, before es[l]. */
  lemma QueueGrows(s: State, es: seq<Event>, k: nat, l: nat, c: ClientId)
    requires HandledAll(s, es) && k <= l <= |es|
    ensures Queue(Before(s, es, k), c) <= Queue(Before(s, es, l), c)
  {
    Between(s, es, k, l);
    DeliveredIsInbox(Before(s, es, k), es[k..l], c);
  }

  // ---------------------------------------------------------------------------
  // Order of delivery, late joiners, departed clients
  // ---------------------------------------------------------------------------

  /**
   * Order: if es[i] and es[j] are forwards, i < j, and c is a member when each
   * of them is handled, then c's channel holds es[i]'s message at an earlier
   * position than es[j]'s.
   */
  lemma ForwardOrder(s: State, es: seq<Event>, i: nat, j: nat, c: ClientId)
    requires HandledAll(s, es)
    requires i < j < |es| && es[i].Forward? && es[j].Forward?
    requires c in Before(s, es, i).members && c in Before(s, es, j).members
    ensures var q := Queue(Replay(s, es).state, c);
      var p := |Queue(Before(s, es, i), c)|;
      var p' := |Queue(Before(s, es, j), c)|;
      p < p' < |q| && q[p] == es[i].msg && q[p'] == es[j].msg
  {
    DeliveredAt(s, es, i, c);
    DeliveredAt(s, es, j, c);
    ForwardAt(s, es, i, c);
    QueueGrows(s, es, i + 1, j, c);
  }

  /** A forward's message ends up in the channel of a client that is a member when it is handled, right after what the channel held before. */
  lemma DeliveredAt(s: State, es: seq<Event>, k: nat, c: ClientId)
    requires HandledAll(s, es) && k < |es| && es[k].Forward?
    requires c in Before(s, es, k).members
    ensures |Queue(Before(s, es, k), c)| < |Queue(Replay(s, es).state, c)|
    ensures Queue(Replay(s, es).state, c)[|Queue(Before(s, es, k), c)|] == es[k].msg
  {
    ForwardAt(s, es, k, c);
    QueueGrows(s, es, k + 1, |es|, c);
    BeforeEnds(s, es);
    PrefixAt(Queue(Before(s, es, k), c), es[k].msg, Queue(Replay(s, es).state, c));
  }

  /** A forward appends its message to the channel of a client that is a member when it is handled. */
  lemma ForwardAt(s: State, es: seq<Event>, k: nat, c: ClientId)
    requires HandledAll(s, es) && k < |es| && es[k].Forward?
    requires c in Before(s, es, k).members
    ensures Queue(Before(s, es, k + 1), c) == Queue(Before(s, es, k), c) + [es[k].msg]
  {
    StepAt(s, es, k);
  }

  /** If a + [x] is a prefix of b then b holds x right after a. */
  lemma PrefixAt(a: seq<Message>, x: Message, b: seq<Message>)
    requires a + [x] <= b
    ensures |a| < |b| && b[|a|] == x
  {
    assert (a + [x])[|a|] == x;
  }

  /**
   * A client that has not joined when the forward es[i] is handled never gets
   * that message: its channel ends up holding only messages forwarded after es[i].
   */
  lemma LateJoinerMissesForward(s: State, es: seq<Event>, i: nat, c: ClientId)
    requires HandledAll(s, es) && i < |es| && es[i].Forward?
    requires c !in Before(s, es, i).outboxes
    ensures Queue(Replay(s, es).state, c) == Inbox(false, es[i + 1..], c)
  {
    StillUnknownAfter(s, es, i, c);
    DeliveredFrom(s, es, i + 1, c);
  }

  /** From the state before es[k] on, c receives what Inbox says of the rest of the log. */
  lemma DeliveredFrom(s: State, es: seq<Event>, k: nat, c: ClientId)
    requires HandledAll(s, es) && k <= |es|
    ensures Queue(Replay(s, es).state, c)
         == Queue(Before(s, es, k), c) + Inbox(c in Before(s, es, k).members, es[k..], c)
  {
    RestFrom(s, es, k);
    DeliveredIsInbox(Before(s, es, k), es[k..], c);
  }

  /** A forward creates no channel: a client unknown before it is unknown, and not a member, after it. */
  lemma StillUnknownAfter(s: State, es: seq<Event>, i: nat, c: ClientId)
    requires HandledAll(s, es) && i < |es| && es[i].Forward?
    requires c !in Before(s, es, i).outboxes
    ensures c !in Before(s, es, i + 1).outboxes && c !in Before(s, es, i + 1).members
  {
    StepAt(s, es, i);
  }

  /** A client whose channel is closed stays out of the room, and its channel never changes again. */
  lemma {:induction false} DepartedQueueFrozen(s: State, es: seq<Event>, c: ClientId)
    requires Consistent(s)
    requires c in s.outboxes && s.outboxes[c].closed
    ensures c !in Replay(s, es).state.members
    ensures c in Replay(s, es).state.outboxes && Replay(s, es).state.outboxes[c] == s.outboxes[c]
    decreases |es|
  {
    if es != [] {
      ReplayUnfold(s, es);
      if Admits(s, es[0]) && Ready(s, es[0]) {
        DepartedQueueFrozen(Step(s, es[0]), es[1..], c);
      }
    }
  }

  /**
   * After the leave es[i], its client is never a member again and its channel
   * stays closed, holding what it held when it left: later forwards never reach it.
   */
  lemma LeaveIsFinal(s: State, es: seq<Event>, i: nat)
    requires HandledAll(s, es) && i < |es| && es[i].Leave?
    ensures es[i].client !in Replay(s, es).state.members
    ensures es[i].client in Replay(s, es).state.outboxes
    ensures Replay(s, es).state.outboxes[es[i].client]
         == Outbox(Queue(Before(s, es, i), es[i].client), true)
  {
    var c := es[i].client;
    LeftAt(s, es, i);
    FrozenFrom(s, es, i + 1, c);
  }

  /** Right after the leave es[i], its client's channel is closed and holds what it held before. */
  lemma LeftAt(s: State, es: seq<Event>, i: nat)
    requires HandledAll(s, es) && i < |es| && es[i].Leave?
    ensures es[i].client in Before(s, es, i + 1).outboxes
    ensures Before(s, es, i + 1).outboxes[es[i].client]
         == Outbox(Queue(Before(s, es, i), es[i].client), true)
  {
    StepAt(s, es, i);
  }

  /** A channel closed before es[k] is, at the end, still closed and unchanged, and its client is no member. */
  lemma FrozenFrom(s: State, es: seq<Event>, k: nat, c: ClientId)
    requires HandledAll(s, es) && k <= |es|
    requires c in Before(s, es, k).outboxes && Before(s, es, k).outboxes[c].closed
    ensures c !in Replay(s, es).state.members
    ensures c in Replay(s, es).state.outboxes
    ensures Replay(s, es).state.outboxes[c] == Before(s, es, k).outboxes[c]
  {
    RestFrom(s, es, k);
    DepartedQueueFrozen(Before(s, es, k), es[k..], c);
  }

  // ---------------------------------------------------------------------------
  // Connections: one join, then at most one leave, per client
  // ---------------------------------------------------------------------------

  /**
   * The logs that connections produce: each client is joined at most once,
   * when its connection is accepted, and leaves at most once, after joining,
   * when its connection's handling ends.
   */
  predicate ConnectionLog(joined: set<ClientId>, left: set<ClientId>, es: seq<Event>)
    decreases |es|
  {
    es == [] ||
    match es[0]
    case Join(c) => c !in joined && ConnectionLog(joined + {c}, left, es[1..])
    case Leave(c) => c in joined && c !in left && ConnectionLog(joined, left + {c}, es[1..])
    case Forward(_) => ConnectionLog(joined, left, es[1..])
  }

  /**
   * A connection log, continued from a room whose clients and departures it
   * knows, never breaks the protocol: where the loop stops, it stops at an
   * event the protocol admits.
   */
  lemma {:induction false} ConnectionLogAdmitted(s: State, es: seq<Event>)
    requires Consistent(s)
    requires ConnectionLog(s.outboxes.Keys, s.outboxes.Keys - s.members, es)
    ensures Replay(s, es).handled < |es| ==> Admits(Replay(s, es).state, es[Replay(s, es).handled])
    decreases |es|
  {
    if es != [] {
      ReplayUnfold(s, es);
      ConnectionStep(s, es[0], es);
      if Admits(s, es[0]) && Ready(s, es[0]) {
        ConnectionLogAdmitted(Step(s, es[0]), es[1..]);
      }
    }
  }

  /** One event of a connection log keeps the log's bookkeeping in line with the room. */
  lemma ConnectionStep(s: State, e: Event, es: seq<Event>)
    requires Consistent(s) && es != [] && es[0] == e
    requires ConnectionLog(s.outboxes.Keys, s.outboxes.Keys - s.members, es)
    ensures Admits(s, e)
    ensures Ready(s, e) ==>
      var s' := Step(s, e);
      ConnectionLog(s'.outboxes.Keys, s'.outboxes.Keys - s'.members, es[1..])
  {
    match e {
      case Join(c) => JoinBookkeeping(s, c);
      case Leave(c) => LeaveBookkeeping(s, c);
      case Forward(m) =>
        if Ready(s, e) {
          ForwardBookkeeping(s, m);
        }
    }
  }

  /** A first join adds its client to the known clients and leaves the departed ones alone. */
  lemma JoinBookkeeping(s: State, c: ClientId)
    requires Consistent(s) && c !in s.outboxes
    ensures CanJoin(s, c)
    ensures JoinStep(s, c).outboxes.Keys == s.outboxes.Keys + {c}
    ensures JoinStep(s, c).outboxes.Keys - JoinStep(s, c).members == s.outboxes.Keys - s.members
  {
  }

  /** A leave of a member adds it to the departed clients. */
  lemma LeaveBookkeeping(s: State, c: ClientId)
    requires Consistent(s) && c in s.outboxes && c !in s.outboxes.Keys - s.members
    ensures CanLeave(s, c)
    ensures LeaveStep(s, c).outboxes.Keys == s.outboxes.Keys
    ensures LeaveStep(s, c).outboxes.Keys - LeaveStep(s, c).members == (s.outboxes.Keys - s.members) + {c}
  {
  }

  /** A forward changes neither the known clients nor the departed ones. */
  lemma ForwardBookkeeping(s: State, m: Message)
    requires Consistent(s) && CanForward(s)
    ensures ForwardStep(s, m).outboxes.Keys == s.outboxes.Keys
    ensures ForwardStep(s, m).outboxes.Keys - ForwardStep(s, m).members == s.outboxes.Keys - s.members
  {
  }

  /**
   * When the loop stops short at an event the protocol admits, that event is
   * a forward and some member's channel is full: it holds MessageBufferSize
   * messages.
   */
  lemma BlockedOnFullChannel(s: State, es: seq<Event>)
    requires Consistent(s)
    requires Replay(s, es).handled < |es|
    requires Admits(Replay(s, es).state, es[Replay(s, es).handled])
    ensures es[Replay(s, es).handled].Forward?
    ensures exists c :: (c in Replay(s, es).state.members
                         && |Replay(s, es).state.outboxes[c].pending| == MessageBufferSize)
  {
    var t := Replay(s, es).state;
    assert !CanForward(t);
    var c :| c in t.members && c in t.outboxes && |t.outboxes[c].pending| >= MessageBufferSize;
  }

  /**
   * A room fed by connections, each joining once and leaving at most once
   * after joining, handles every event of the log unless it blocks on a
   * forward while some member's channel is full.
   */
  lemma ConnectionsOnlyBlockOnFullChannel(es: seq<Event>)
    requires ConnectionLog({}, {}, es)
    ensures Replay(NewRoom(), es).handled < |es| ==>
      && es[Replay(NewRoom(), es).handled].Forward?
      && exists c :: (c in Replay(NewRoom(), es).state.members
                      && |Replay(NewRoom(), es).state.outboxes[c].pending| == MessageBufferSize)
  {
    assert NewRoom().outboxes.Keys == {} && NewRoom().outboxes.Keys - NewRoom().members == {};
    ConnectionLogAdmitted(NewRoom(), es);
    if Replay(NewRoom(), es).handled < |es| {
      BlockedOnFullChannel(NewRoom(), es);
    }
  }
}
