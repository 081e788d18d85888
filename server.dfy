/**
 * The socket handlers of server/server.js as one sequential state machine:
 * the `onlineUsers` presence set, the message store (records with a
 * mutable status) and the log of pushes the server emits.
 */
module Server {
  import opened Wrappers
  import opened Addressing
  import opened MessageSchema

  /** Where a push goes: one user's room (`io.to(id)`) or every socket (`io.emit`). */
  datatype Target = Room(name: string) | Everyone

  datatype Event =
    | NewMessage(msg: Message)
    | MessageSeen(conversationId: string)
    | OnlineUsers(users: set<string>)

  datatype Push = Push(target: Target, event: Event)

  /** The filter of the `seenMessage` bulk update. */
  predicate SeenEligible(m: Message, cid: string, receiver: string)
  {
    m.conversationId == cid && m.receiver == receiver && m.status != Seen
  }

  /** `updateMany(filter, { $set: { status: "seen" } })` on the whole store, as one step. */
  function MarkSeen(store: seq<Message>, cid: string, receiver: string): (r: seq<Message>)
    ensures |r| == |store|
    ensures forall i :: 0 <= i < |store| ==>
              r[i] == if SeenEligible(store[i], cid, receiver) then store[i].(status := Seen) else store[i]
  {
    if store == [] then []
    else
      var head := if SeenEligible(store[0], cid, receiver) then store[0].(status := Seen) else store[0];
      [head] + MarkSeen(store[1..], cid, receiver)
  }

  /** `modifiedCount`: the number of records the filter selects. */
  function SeenCount(store: seq<Message>, cid: string, receiver: string): (n: nat)
    ensures n <= |store|
    ensures n == 0 <==> forall i :: 0 <= i < |store| ==> !SeenEligible(store[i], cid, receiver)
  {
    if store == [] then 0
    else (if SeenEligible(store[0], cid, receiver) then 1 else 0) + SeenCount(store[1..], cid, receiver)
  }

  /** The positions of the records the bulk update modifies. */
  ghost function ModifiedIndices(store: seq<Message>, cid: string, receiver: string): set<nat>
  {
    set i: nat | i < |store| && MarkSeen(store, cid, receiver)[i] != store[i]
  }

  /** The positions of the records the update's filter selects. */
  ghost function SelectedIndices(store: seq<Message>, cid: string, receiver: string): set<nat>
  {
    set i: nat | i < |store| && SeenEligible(store[i], cid, receiver)
  }

  /** `modifiedCount` is the number of records whose stored value the update changes. */
  lemma SeenCountIsModifiedCount(store: seq<Message>, cid: string, receiver: string)
    ensures SeenCount(store, cid, receiver) == |ModifiedIndices(store, cid, receiver)|
  {
    assert ModifiedIndices(store, cid, receiver) == SelectedIndices(store, cid, receiver);
    SeenCountIsSelectedCount(store, cid, receiver);
  }

  lemma {:induction false} SeenCountIsSelectedCount(store: seq<Message>, cid: string, receiver: string)
    ensures SeenCount(store, cid, receiver) == |SelectedIndices(store, cid, receiver)|
  {
    if store != [] {
      var tail := SelectedIndices(store[1..], cid, receiver);
      var head: set<nat> := if SeenEligible(store[0], cid, receiver) then {0} else {};
      SeenCountIsSelectedCount(store[1..], cid, receiver);
      ShiftedSize(tail);
      SelectedIndicesSplit(store, cid, receiver);
      assert head !! Shifted(tail);
    }
  }

  /** The selected positions of a store: its head if selected, and its tail's one further on. */
  lemma SelectedIndicesSplit(store: seq<Message>, cid: string, receiver: string)
    requires store != []
    ensures SelectedIndices(store, cid, receiver)
            == (if SeenEligible(store[0], cid, receiver) then {0} else {})
               + Shifted(SelectedIndices(store[1..], cid, receiver))
  {
    var tail := SelectedIndices(store[1..], cid, receiver);
    forall i | i in SelectedIndices(store, cid, receiver) && i > 0
      ensures i in Shifted(tail)
    {
      assert store[1..][i - 1] == store[i];
      assert i - 1 in tail;
    }
  }

  /** Every position one further on. */
  function Shifted(s: set<nat>): set<nat>
  {
    set i | i in s :: i + 1
  }

  lemma {:induction false} ShiftedSize(s: set<nat>)
    ensures |Shifted(s)| == |s|
    decreases |s|
  {
    if s != {} {
      var x :| x in s;
      var rest := s - {x};
      ShiftedSize(rest);
      assert Shifted(s) == Shifted(rest) + {x + 1} by {
        forall y | y in Shifted(s) ensures y in Shifted(rest) + {x + 1} {
          var i :| i in s && y == i + 1;
          if i != x { assert i in rest; }
        }
      }
      assert x + 1 !in Shifted(rest);
    }
  }

  /** `after` holds the same records as `before`, each at the same or a later status. */
  predicate StatusesAdvanced(before: seq<Message>, after: seq<Message>)
  {
    && |before| == |after|
    && forall i :: 0 <= i < |before| ==> AtOrAfter(before[i].status, after[i].status)
  }

  /** The bulk update never moves a status backwards. */
  lemma MarkSeenMonotone(store: seq<Message>, cid: string, receiver: string)
    ensures StatusesAdvanced(store, MarkSeen(store, cid, receiver))
  {
  }

  /** A second update with nothing appended in between changes nothing and counts zero. */
  lemma MarkSeenIdempotent(store: seq<Message>, cid: string, receiver: string)
    ensures MarkSeen(MarkSeen(store, cid, receiver), cid, receiver) == MarkSeen(store, cid, receiver)
    ensures SeenCount(MarkSeen(store, cid, receiver), cid, receiver) == 0
  {
  }

  /** What the store must hold for every record the handlers create. */
  predicate StoredRecord(m: Message, clock: nat)
  {
    && IsObjectId(m.sender)
    && IsObjectId(m.receiver)
    && m.text != ""
    && m.conversationId == ConversationId(m.sender, m.receiver)
    && m.status != Delivered
    && m.createdAt < clock
  }

  predicate StoreInvariant(store: seq<Message>, clock: nat)
  {
    && (forall i :: 0 <= i < |store| ==> StoredRecord(store[i], clock))
    && (forall i, j :: 0 <= i < j < |store| ==> store[i].createdAt < store[j].createdAt)
  }

  lemma MarkSeenKeepsInvariant(store: seq<Message>, clock: nat, cid: string, receiver: string)
    requires StoreInvariant(store, clock)
    ensures StoreInvariant(MarkSeen(store, cid, receiver), clock)
  {
    var r := MarkSeen(store, cid, receiver);
    forall i | 0 <= i < |r|
      ensures StoredRecord(r[i], clock) && r[i].createdAt == store[i].createdAt
    {
    }
  }

  /** The draft `privateMessage` hands to `Message.create`. */
  function OutgoingDraft(sender: string, receiver: string, text: string): Draft
  {
    Draft(Some(sender), Some(receiver), Some(text), Some(ConversationId(sender, receiver)), Some("sent"))
  }

  /** Socket ids are handed out by the transport; here they are numbers. */
  type SocketId = nat

  /** Every live socket has an id handed out before `next`. */
  predicate SocketIdsIssued(sockets: map<SocketId, Option<string>>, next: SocketId)
  {
    forall sid :: sid in sockets ==> sid < next
  }

  class ChatServer {
    /** `onlineUsers`, the module-level presence set. */
    var online: set<string>
    /** The message collection, in insertion order. */
    var store: seq<Message>
    /** Every emit, oldest first. */
    var pushes: seq<Push>
    /** The next `createdAt` value. */
    var clock: nat
    /** Each live socket and its `socket.userId` (`None` until it joins). */
    var sockets: map<SocketId, Option<string>>
    var nextSocket: SocketId

    ghost predicate Valid()
      reads this
    {
      && StoreInvariant(store, clock)
      && SocketIdsIssued(sockets, nextSocket)
    }

    constructor ()
      ensures Valid()
      ensures online == {} && store == [] && pushes == [] && sockets == map[]
    {
      online := {};
      store := [];
      pushes := [];
      clock := 0;
      sockets := map[];
      nextSocket := 0;
    }

    /** `io.on("connection")`: a new socket, not yet joined. */
    method Connect() returns (sid: SocketId)
      requires Valid()
      modifies this`sockets, this`nextSocket
      ensures Valid()
      ensures sid !in old(sockets) && sockets == old(sockets)[sid := None]
    {
      sid := nextSocket;
      sockets := sockets[sid := None];
      nextSocket := nextSocket + 1;
    }

    /** `join`: binds the socket to `userId`, marks the user online and broadcasts the set. */
    method Join(sid: SocketId, userId: string)
      requires Valid() && sid in sockets
      modifies this`sockets, this`online, this`pushes
      ensures Valid()
      ensures userId in online
      ensures online == old(online) + {userId}
      ensures sockets == old(sockets)[sid := Some(userId)]
      ensures pushes == old(pushes) + [Push(Everyone, OnlineUsers(online))]
    {
      sockets := sockets[sid := Some(userId)];
      online := online + {userId};
      pushes := pushes + [Push(Everyone, OnlineUsers(online))];
    }

    /**
     * `privateMessage`: persists the message as "sent", then pushes it to the
     * sender's room labelled "sent" and to the receiver's room labelled
     * "delivered". When the create fails nothing is stored or pushed.
     */
    method PrivateMessage(sender: string, receiver: string, text: string, storeUp: bool) returns (created: bool)
      requires Valid()
      modifies this`store, this`clock, this`pushes
      ensures Valid()
      ensures created <==> storeUp && IsObjectId(sender) && IsObjectId(receiver) && text != ""
      ensures created ==>
                var m := Message(sender, receiver, text, ConversationId(sender, receiver), Sent, old(clock));
                && store == old(store) + [m]
                && pushes == old(pushes) + [Push(Room(sender), NewMessage(m)),
                                            Push(Room(receiver), NewMessage(m.(status := Delivered)))]
                && clock == old(clock) + 1
      ensures !created ==> store == old(store) && pushes == old(pushes) && clock == old(clock)
    {
      var r := Create(OutgoingDraft(sender, receiver, text), clock, storeUp);
      if r.Failure? {
        created := false;
        return;
      }
      var msg := r.value;
      store := store + [msg];
      clock := clock + 1;
      pushes := pushes + [Push(Room(sender), NewMessage(msg.(status := Sent))),
                          Push(Room(receiver), NewMessage(msg.(status := Delivered)))];
      created := true;
    }

    /**
     * `seenMessage`: `receiver` has read the conversation with `sender`.
     * Every unseen record addressed to `receiver` in it becomes seen, and
     * `sender` is told only when some record changed. A receiver that does
     * not cast to an ObjectId, or a store that is down, makes the update throw.
     */
    method SeenMessage(sender: string, receiver: string, storeUp: bool) returns (modified: nat)
      requires Valid()
      modifies this`store, this`pushes
      ensures Valid()
      ensures storeUp && IsObjectId(receiver) ==>
                && store == MarkSeen(old(store), ConversationId(sender, receiver), receiver)
                && modified == SeenCount(old(store), ConversationId(sender, receiver), receiver)
                && pushes == old(pushes) + (if modified > 0 then [Push(Room(sender), MessageSeen(ConversationId(sender, receiver)))] else [])
      ensures !storeUp || !IsObjectId(receiver) ==> store == old(store) && pushes == old(pushes) && modified == 0
    {
      var cid := ConversationId(sender, receiver);
      if !storeUp || !IsObjectId(receiver) {
        modified := 0;
        return;
      }
      MarkSeenKeepsInvariant(store, clock, cid, receiver);
      modified := SeenCount(store, cid, receiver);
      store := MarkSeen(store, cid, receiver);
      assert Valid();
      var note := if modified > 0 then [Push(Room(sender), MessageSeen(cid))] else [];
      pushes := pushes + note;
    }

    /**
     * `disconnect`: a socket that joined as a non-empty id removes that id
     * from the set, whatever other sockets joined as it, and broadcasts the set.
     */
    method Disconnect(sid: SocketId)
      requires Valid() && sid in sockets
      modifies this`sockets, this`online, this`pushes
      ensures Valid()
      ensures sockets == old(sockets) - {sid}
      ensures old(sockets)[sid].Some? && old(sockets)[sid].value != "" ==>
                && online == old(online) - {old(sockets)[sid].value}
                && pushes == old(pushes) + [Push(Everyone, OnlineUsers(online))]
      ensures old(sockets)[sid].None? || old(sockets)[sid].value == "" ==>
                online == old(online) && pushes == old(pushes)
    {
      var user := sockets[sid];
      if user.Some? && user.value != "" {
        online := online - {user.value};
        pushes := pushes + [Push(Everyone, OnlineUsers(online))];
      }
      sockets := sockets - {sid};
    }
  }
}
