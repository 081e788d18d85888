/**
 * Properties that span the server, the fetch route and the client: the
 * client asks the server to mark a conversation seen exactly when the
 * server's bulk update would change something, and a live push keeps the
 * client's cached conversation equal to a fresh fetch.
 */
module EndToEnd {
  import opened Wrappers
  import opened Addressing
  import opened MessageSchema
  import opened MessageRoutes
  import opened Server
  import opened ChatClient

  /** A record is fetched exactly when it is stored under the conversation's key. */
  lemma FetchedIffStored(store: seq<Message>, me: string, other: string, m: Message)
    ensures m in GetConversation(store, me, other, true).messages
            <==> m in store && m.conversationId == ConversationId(me, other)
  {
    var msgs := GetConversation(store, me, other, true).messages;
    assert m in msgs <==> m in multiset(msgs);
    assert m in store <==> m in multiset(store);
  }

  lemma UnseenFetchedIsEligible(store: seq<Message>, me: string, other: string)
    requires HasUnseenIncoming(GetConversation(store, me, other, true).messages, other, me)
    ensures SeenCount(store, ConversationId(other, me), me) > 0
  {
    var msgs := GetConversation(store, me, other, true).messages;
    var i :| 0 <= i < |msgs| && UnseenFrom(msgs[i], other, me);
    FetchedIffStored(store, me, other, msgs[i]);
    Commutative(me, other);
    var j :| 0 <= j < |store| && store[j] == msgs[i];
    assert SeenEligible(store[j], ConversationId(other, me), me);
  }

  lemma EligibleIsUnseenFetched(store: seq<Message>, clock: nat, me: string, other: string)
    requires StoreInvariant(store, clock)
    requires WellFormedId(me) && WellFormedId(other)
    requires SeenCount(store, ConversationId(other, me), me) > 0
    ensures HasUnseenIncoming(GetConversation(store, me, other, true).messages, other, me)
  {
    var cid := ConversationId(other, me);
    var j :| 0 <= j < |store| && SeenEligible(store[j], cid, me);
    var m := store[j];
    assert StoredRecord(m, clock);
    ObjectIdIsWellFormed(m.sender);
    Injective(m.sender, me, other, me);
    Commutative(me, other);
    FetchedIffStored(store, me, other, m);
    var msgs := GetConversation(store, me, other, true).messages;
    var i :| 0 <= i < |msgs| && msgs[i] == m;
    assert UnseenFrom(msgs[i], other, me);
  }

  /**
   * `me` has fetched its conversation with `other`. The page emits
   * `seenMessage { sender: other, receiver: me }` exactly when that update
   * has something to modify, so the server then notifies `other`.
   */
  lemma ClientSeenMatchesServer(store: seq<Message>, clock: nat, me: string, other: string)
    requires StoreInvariant(store, clock)
    requires WellFormedId(me) && WellFormedId(other)
    ensures HasUnseenIncoming(GetConversation(store, me, other, true).messages, other, me)
            <==> SeenCount(store, ConversationId(other, me), me) > 0
  {
    if HasUnseenIncoming(GetConversation(store, me, other, true).messages, other, me) {
      UnseenFetchedIsEligible(store, me, other);
    }
    if SeenCount(store, ConversationId(other, me), me) > 0 {
      EligibleIsUnseenFetched(store, clock, me, other);
    }
  }

  /** Once the server has marked the conversation seen, a new fetch gives the page nothing to acknowledge. */
  lemma SeenAcknowledgementSettles(store: seq<Message>, clock: nat, me: string, other: string)
    requires StoreInvariant(store, clock)
    requires WellFormedId(me) && WellFormedId(other)
    ensures !HasUnseenIncoming(
               GetConversation(MarkSeen(store, ConversationId(other, me), me), me, other, true).messages, other, me)
  {
    var cid := ConversationId(other, me);
    MarkSeenKeepsInvariant(store, clock, cid, me);
    MarkSeenIdempotent(store, cid, me);
    ClientSeenMatchesServer(MarkSeen(store, cid, me), clock, me, other);
  }

  /**
   * A page whose cache holds the fetched conversation and which receives a
   * newly stored record's push (with any status shown) caches the fetch
   * extended by that push; for the "sent" label of the sender's copy this
   * is exactly what a fresh fetch returns.
   */
  lemma LivePushExtendsFetch(store: seq<Message>, clock: nat, m: Message, me: string, other: string,
                             cache: Cache, shown: Status)
    requires StoreInvariant(store + [m], clock)
    requires m.conversationId == ConversationId(me, other)
    requires Lookup(cache, ConversationId(me, other)) == GetConversation(store, me, other, true).messages
    ensures GetConversation(store + [m], me, other, true).messages
            == GetConversation(store, me, other, true).messages + [m]
    ensures AppendIncoming(cache, m.(status := shown))[ConversationId(me, other)]
            == GetConversation(store, me, other, true).messages + [m.(status := shown)]
    ensures m.status == Sent ==>
              AppendIncoming(cache, m.(status := Sent))[ConversationId(me, other)]
              == GetConversation(store + [m], me, other, true).messages
  {
    var cid := ConversationId(me, other);
    assert forall i, j :: 0 <= i < j < |store| ==> store[i].createdAt < store[j].createdAt by {
      forall i, j | 0 <= i < j < |store|
        ensures store[i].createdAt < store[j].createdAt
      {
        assert store[i] == (store + [m])[i] && store[j] == (store + [m])[j];
      }
    }
    assert StoredRecord((store + [m])[|store|], clock);
    OrderedStoreFetchedInStoreOrder(store, me, other);
    OrderedStoreFetchedInStoreOrder(store + [m], me, other);
    ByConversationAppend(store, m, cid);
  }

  /** A message sent between two joined users: stored as sent, pushed sent to the sender and delivered to the receiver. */
  method DeliveryScenario()
  {
    var a := "aaaaaaaaaaaaaaaaaaaaaaaa";
    var b := "bbbbbbbbbbbbbbbbbbbbbbbb";
    assert IsObjectId(a) && IsObjectId(b);
    var server := new ChatServer();
    var sa := server.Connect();
    server.Join(sa, a);
    var sb := server.Connect();
    server.Join(sb, b);
    var early := server.pushes;

    var ok := server.PrivateMessage(a, b, "hi", true);
    assert ok;
    var stored := server.store[0];
    assert stored.status == Sent;
    assert server.pushes == early + [Push(Room(a), NewMessage(stored)),
                                     Push(Room(b), NewMessage(stored.(status := Delivered)))];
  }

  /** The receiver reads the message: one record becomes seen and the sender is told; a repeat is a no-op. */
  method SeenScenario()
  {
    var a := "aaaaaaaaaaaaaaaaaaaaaaaa";
    var b := "bbbbbbbbbbbbbbbbbbbbbbbb";
    assert IsObjectId(a) && IsObjectId(b);
    var server := new ChatServer();
    var ok := server.PrivateMessage(a, b, "hi", true);
    assert ok && |server.store| == 1;
    var before := server.pushes;

    var n := server.SeenMessage(a, b, true);
    assert n == 1;
    assert server.pushes == before + [Push(Room(a), MessageSeen(ConversationId(a, b)))];
    assert server.store[0].status == Seen;
    var again := server.SeenMessage(a, b, true);
    assert again == 0;
  }

  /** Two tabs joined as one user: closing either one takes the user offline. */
  method TwoTabsScenario()
  {
    var b := "bbbbbbbbbbbbbbbbbbbbbbbb";
    var server := new ChatServer();
    var tab1 := server.Connect();
    server.Join(tab1, b);
    var tab2 := server.Connect();
    server.Join(tab2, b);
    server.Disconnect(tab1);
    assert b !in server.online && server.sockets[tab2] == Some(b);
  }
}
