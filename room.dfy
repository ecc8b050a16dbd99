/**
 * The chat room of chat/room.go: a membership set of clients, each client's
 * outbound `send` channel, and the room's event loop that handles one join,
 * leave or forward request at a time.
 *
 * A `*Client` is represented by its identity (a ClientId) and its `send`
 * channel (an Outbox). The room keeps the channel of every client that has
 * joined or left, so that the model can say what happens to the channels of
 * clients that have left. A client's channel enters the model at the
 * client's first join or leave. The `select` over the three request channels is
 * represented by an explicit sequence of events, handled in order.
 */
module ChatRoom {

  /** Capacity of every client's `send` channel (messageBufferSize). */
  const MessageBufferSize: nat := 256

  newtype Byte = x: int | 0 <= x < 256

  /** A chat message: the payload of one websocket frame, an opaque byte string. */
  type Message = seq<Byte>

  /** The identity of a client; distinct `*Client` pointers have distinct ids. */
  type ClientId = nat

  /** A client's `send` channel: the messages waiting in it, oldest first, and whether it is closed. */
  datatype Outbox = Outbox(pending: seq<Message>, closed: bool)

  /** One request taken by the room's loop from its `join`, `leave` or `forward` channel. */
  datatype Event = Join(client: ClientId) | Leave(client: ClientId) | Forward(msg: Message)

  /**
   * The room as a value: the members (the keys of `clients`), and the `send`
   * channel of every client that has joined or left at some point.
   */
  datatype State = State(members: set<ClientId>, outboxes: map<ClientId, Outbox>)

  /**
   * The room's invariant: a known client is a member exactly when its channel
   * is still open, and no channel holds more than its capacity.
   */
  predicate Consistent(s: State) {
    && s.members <= s.outboxes.Keys
    && (forall c :: c in s.outboxes ==> (c in s.members <==> !s.outboxes[c].closed))
    && (forall c :: c in s.outboxes ==> |s.outboxes[c].pending| <= MessageBufferSize)
  }

  /** The messages waiting in c's channel, or none if c has no channel. */
  function Queue(s: State, c: ClientId): seq<Message> {
    if c in s.outboxes then s.outboxes[c].pending else []
  }

  /** NewRoom: a room with no members and no clients. */
  function NewRoom(): (s: State)
    ensures Consistent(s)
    ensures s.members == {} && s.outboxes == map[]
  {
    State({}, map[])
  }

  /**
   * A join is given a client whose `send` channel is new and open, or one
   * that is already a member; a client that has left cannot join again.
   */
  predicate CanJoin(s: State, c: ClientId) {
    c !in s.outboxes || c in s.members
  }

  /**
   * A leave closes c's channel, which must be open: closing it twice panics.
   * A client that has never joined still has the open channel it was created
   * with, so its leave is allowed too.
   */
  predicate CanLeave(s: State, c: ClientId) {
    c !in s.outboxes || !s.outboxes[c].closed
  }

  /** A forward completes without blocking only if every member's channel has room. */
  predicate CanForward(s: State) {
    forall c :: c in s.members && c in s.outboxes ==> |s.outboxes[c].pending| < MessageBufferSize
  }

  /** The join case of the loop: `clients[client] = true`. */
  function JoinStep(s: State, c: ClientId): (r: State)
    requires Consistent(s) && CanJoin(s, c)
    ensures Consistent(r)
  {
    var outboxes := if c in s.outboxes then s.outboxes else s.outboxes[c := Outbox([], false)];
    State(s.members + {c}, outboxes)
  }

  /**
   * A join adds exactly its client to the members, with an open channel that
   * is empty if it is new; joining again changes nothing; no other client and
   * no other channel changes.
   */
  lemma JoinStepSpec(s: State, c: ClientId)
    requires Consistent(s) && CanJoin(s, c)
    ensures var r := JoinStep(s, c);
      && r.members == s.members + {c}
      && |r.members| == (if c in s.members then |s.members| else |s.members| + 1)
      && c in r.outboxes && !r.outboxes[c].closed
      && (c !in s.outboxes ==> r.outboxes[c].pending == [])
      && (c in s.members ==> r == s)
      && (forall d :: d != c ==> (d in r.outboxes <==> d in s.outboxes))
      && (forall d :: d != c && d in s.outboxes ==> r.outboxes[d] == s.outboxes[d])
  {
  }

  /** The leave case of the loop: `delete(r.clients, client)` then `close(client.send)`. */
  function LeaveStep(s: State, c: ClientId): (r: State)
    requires Consistent(s) && CanLeave(s, c)
    ensures Consistent(r)
  {
    var q := if c in s.outboxes then s.outboxes[c] else Outbox([], false);
    State(s.members - {c}, s.outboxes[c := q.(closed := true)])
  }

  /**
   * A leave takes its client out of the room, which shrinks by one when the
   * client was a member (always, if it has joined before) and is unchanged
   * when it never joined; no other client's membership changes.
   */
  lemma LeaveStepSpec(s: State, c: ClientId)
    requires Consistent(s) && CanLeave(s, c)
    ensures c in s.outboxes ==> c in s.members
    ensures c !in LeaveStep(s, c).members
    ensures LeaveStep(s, c).members == s.members - {c}
    ensures |LeaveStep(s, c).members| == if c in s.members then |s.members| - 1 else |s.members|
  {
    var r := LeaveStep(s, c);
    assert r.members == s.members - {c};
    RemoveCard(s.members, c);
  }

  /**
   * A leave closes its client's channel, holding what it held (nothing, for
   * a client that never joined), and no other channel changes.
   */
  lemma LeaveClosesChannel(s: State, c: ClientId)
    requires Consistent(s) && CanLeave(s, c)
    ensures LeaveStep(s, c).outboxes.Keys == s.outboxes.Keys + {c}
    ensures LeaveStep(s, c).outboxes[c] == Outbox(Queue(s, c), true)
    ensures forall d :: d != c && d in s.outboxes ==> LeaveStep(s, c).outboxes[d] == s.outboxes[d]
  {
  }

  /** Taking one element out of a set shrinks it by one exactly when the element was in it. */
  lemma RemoveCard(a: set<ClientId>, c: ClientId)
    ensures |a - {c}| == if c in a then |a| - 1 else |a|
  {
    if c !in a {
      assert a - {c} == a;
    }
  }

  /** `client.send <- msg` on a channel with room. */
  function Push(q: Outbox, m: Message): Outbox {
    q.(pending := q.pending + [m])
  }

  /** The channels after `m` has been sent to every client in `targets`. */
  function FanOut(boxes: map<ClientId, Outbox>, targets: set<ClientId>, m: Message): map<ClientId, Outbox> {
    map c | c in boxes :: if c in targets then Push(boxes[c], m) else boxes[c]
  }

  /** The forward case of the loop: the message is sent to every member. */
  function ForwardStep(s: State, m: Message): (r: State)
    requires Consistent(s) && CanForward(s)
    ensures Consistent(r)
  {
    State(s.members, FanOut(s.outboxes, s.members, m))
  }

  /**
   * A forward appends the message exactly once to every member's channel,
   * which stays open, and leaves the members and every other channel alone.
   */
  lemma ForwardStepSpec(s: State, m: Message)
    requires Consistent(s) && CanForward(s)
    ensures var r := ForwardStep(s, m);
      && r.members == s.members && r.outboxes.Keys == s.outboxes.Keys
      && (forall c :: c in s.members ==> r.outboxes[c] == Outbox(s.outboxes[c].pending + [m], false))
      && (forall c :: c in s.outboxes && c !in s.members ==> r.outboxes[c] == s.outboxes[c])
  {
  }

  /** Whether the loop can handle e to completion now: only a forward can block. */
  predicate Ready(s: State, e: Event) {
    e.Forward? ==> CanForward(s)
  }

  /** Whether e respects the protocol in state s (see CanJoin and CanLeave). */
  predicate Admits(s: State, e: Event) {
    match e
    case Join(c) => CanJoin(s, c)
    case Leave(c) => CanLeave(s, c)
    case Forward(_) => true
  }

  /** One iteration of the room's loop: the case of the `select` that e selects. */
  function Step(s: State, e: Event): (r: State)
    requires Consistent(s) && Admits(s, e) && Ready(s, e)
    ensures Consistent(r)
  {
    match e
    case Join(c) => JoinStep(s, c)
    case Leave(c) => LeaveStep(s, c)
    case Forward(m) => ForwardStep(s, m)
  }

  /** How far the loop got: the state it reached and how many events it handled. */
  datatype Progress = Progress(state: State, handled: nat)

  /**
   * The room's loop handling es in order. It stops at the first event it
   * cannot handle: a forward that would block on a full channel (with no
   * consumer draining the channels, it stays blocked there), or a join or
   * leave that breaks the protocol (a second close of a channel panics).
   */
  function Replay(s: State, es: seq<Event>): (r: Progress)
    requires Consistent(s)
    ensures Consistent(r.state)
    ensures r.handled <= |es|
    ensures r.handled < |es| ==> !Admits(r.state, es[r.handled]) || !Ready(r.state, es[r.handled])
    decreases |es|
  {
    if es == [] || !Admits(s, es[0]) || !Ready(s, es[0]) then Progress(s, 0)
    else
      var r := Replay(Step(s, es[0]), es[1..]);
      Progress(r.state, r.handled + 1)
  }

  /** Replay's first iteration, unfolded. */
  lemma ReplayUnfold(s: State, es: seq<Event>)
    requires Consistent(s) && es != []
    ensures !Admits(s, es[0]) || !Ready(s, es[0]) ==> Replay(s, es) == Progress(s, 0)
    ensures Admits(s, es[0]) && Ready(s, es[0]) ==>
      var r := Replay(Step(s, es[0]), es[1..]); Replay(s, es) == Progress(r.state, r.handled + 1)
  {
  }

  /** The room of chat/room.go, with its `clients` set and its clients' `send` channels. */
  class Room {
    var clients: set<ClientId>
    var outboxes: map<ClientId, Outbox>

    function Model(): State
      reads this
    {
      State(clients, outboxes)
    }

    ghost predicate Valid()
      reads this
    {
      Consistent(Model())
    }

    /** NewRoom: an empty membership set. */
    constructor ()
      ensures Valid() && Model() == NewRoom()
      ensures clients == {}
    {
      clients := {};
      outboxes := map[];
    }

    /** A client joins; a new client's channel is created empty and open (capacity MessageBufferSize). */
    method Join(c: ClientId)
      requires Valid() && CanJoin(Model(), c)
      modifies this
      ensures Valid() && Model() == JoinStep(old(Model()), c)
    {
      if c !in outboxes {
        outboxes := outboxes[c := Outbox([], false)];
      }
      clients := clients + {c};
    }

    /**
     * A client leaves: it is removed from the room, then its channel is
     * closed; a client that never joined brings its new, empty channel.
     */
    method Leave(c: ClientId)
      requires Valid() && CanLeave(Model(), c)
      modifies this
      ensures Valid() && Model() == LeaveStep(old(Model()), c)
    {
      clients := clients - {c};
      if c !in outboxes {
        outboxes := outboxes[c := Outbox([], false)];
      }
      outboxes := outboxes[c := outboxes[c].(closed := true)];
    }

    /** The fan-out: `msg` is sent to the members one at a time, in no particular order. */
    method Forward(msg: Message)
      requires Valid() && CanForward(Model())
      modifies this
      ensures Valid() && Model() == ForwardStep(old(Model()), msg)
    {
      var rest := clients;
      while rest != {}
        invariant rest <= clients && clients == old(clients)
        invariant outboxes == FanOut(old(outboxes), clients - rest, msg)
        decreases rest
      {
        var c :| c in rest;
        ghost var done := clients - rest;
        outboxes := outboxes[c := Push(outboxes[c], msg)];
        rest := rest - {c};
        assert clients - rest == done + {c};
      }
      assert clients - rest == clients;
    }

    /** One iteration of the loop: the `select` case for e. */
    method Handle(e: Event)
      requires Valid() && Admits(Model(), e) && Ready(Model(), e)
      modifies this
      ensures Valid() && Model() == Step(old(Model()), e)
    {
      match e
      case Join(c) => Join(c);
      case Leave(c) => Leave(c);
      case Forward(m) => Forward(m);
    }

    /**
     * The loop handling `events` in order. It returns how many it handled:
     * fewer than all when it reached a forward that blocks on a full channel,
     * or a join or leave that breaks the protocol.
     */
    method Run(events: seq<Event>) returns (handled: nat)
      requires Valid()
      modifies this
      ensures Valid()
      ensures Progress(Model(), handled) == Replay(old(Model()), events)
    {
      ghost var goal := Replay(Model(), events);
      handled := 0;
      while handled < |events|
        invariant handled <= |events| && Valid()
        invariant goal == Progress(Replay(Model(), events[handled..]).state,
                                   Replay(Model(), events[handled..]).handled + handled)
        decreases |events| - handled
      {
        var e := events[handled];
        ghost var before := Model();
        ghost var rest := events[handled..];
        assert rest[0] == e && rest[1..] == events[handled + 1..];
        ReplayUnfold(before, rest);
        if !Admits(Model(), e) || !Ready(Model(), e) {
          break;
        }
        Handle(e);
        handled := handled + 1;
      }
      assert handled == |events| ==> events[handled..] == [];
    }
  }
}
