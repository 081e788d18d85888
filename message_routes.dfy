/**
 * The conversation fetch of server/routes/messageRoutes.js: `GET /:userId`
 * derives the key of the conversation between the authenticated user and
 * `userId`, finds its records and sorts them by `createdAt`.
 */
module MessageRoutes {
  import opened Addressing
  import opened MessageSchema

  /** `Message.find({ conversationId })`: the records of one conversation, in store order. */
  function ByConversation(store: seq<Message>, cid: string): (r: seq<Message>)
    ensures forall i :: 0 <= i < |r| ==> r[i].conversationId == cid
    ensures forall m {:trigger multiset(r)[m]} ::
              multiset(r)[m] == if m.conversationId == cid then multiset(store)[m] else 0
  {
    if store == [] then []
    else
      var rest := ByConversation(store[1..], cid);
      assert store == [store[0]] + store[1..];
      if store[0].conversationId == cid then [store[0]] + rest else rest
  }

  predicate SortedByCreatedAt(s: seq<Message>)
  {
    forall i, j :: 0 <= i < j < |s| ==> s[i].createdAt <= s[j].createdAt
  }

  /** Places `m` before the first record that is not older than it. */
  function InsertByCreatedAt(m: Message, s: seq<Message>): (r: seq<Message>)
    requires SortedByCreatedAt(s)
    ensures SortedByCreatedAt(r)
    ensures multiset(r) == multiset(s) + multiset{m}
    ensures |r| == |s| + 1
    ensures r[0] == m || (s != [] && r[0] == s[0])
  {
    if s == [] || m.createdAt <= s[0].createdAt then [m] + s
    else
      assert s == [s[0]] + s[1..];
      [s[0]] + InsertByCreatedAt(m, s[1..])
  }

  /** `.sort("createdAt")`: ascending by creation time, a permutation of its input. */
  function SortByCreatedAt(s: seq<Message>): (r: seq<Message>)
    ensures SortedByCreatedAt(r)
    ensures multiset(r) == multiset(s)
  {
    if s == [] then []
    else
      assert s == [s[0]] + s[1..];
      InsertByCreatedAt(s[0], SortByCreatedAt(s[1..]))
  }

  /** Input that is already in order is returned unchanged. */
  lemma {:induction false} SortKeepsSortedInput(s: seq<Message>)
    requires SortedByCreatedAt(s)
    ensures SortByCreatedAt(s) == s
  {
    if s != [] {
      assert SortedByCreatedAt(s[1..]);
      SortKeepsSortedInput(s[1..]);
    }
  }

  /** The HTTP answer: the JSON list of messages, or status 500 with an error body. */
  datatype Response = Json(messages: seq<Message>) | ServerError(code: nat, error: string)

  const FetchError: string := "Failed to load messages"

  /**
   * `GET /:userId` for the authenticated user `me`. The store is read only;
   * `storeUp` is false when the query throws.
   */
  function GetConversation(store: seq<Message>, me: string, other: string, storeUp: bool): (r: Response)
    ensures !storeUp ==> r == ServerError(500, FetchError)
    ensures storeUp ==> r.Json?
    ensures r.Json? ==> SortedByCreatedAt(r.messages)
    ensures r.Json? ==> forall i :: 0 <= i < |r.messages| ==> r.messages[i].conversationId == ConversationId(me, other)
    ensures r.Json? ==> forall i :: 0 <= i < |store| && store[i].conversationId == ConversationId(me, other)
                          ==> store[i] in r.messages
    ensures r.Json? ==> forall m {:trigger multiset(r.messages)[m]} ::
                          multiset(r.messages)[m] == if m.conversationId == ConversationId(me, other) then multiset(store)[m] else 0
  {
    if !storeUp then ServerError(500, FetchError)
    else
      var found := ByConversation(store, ConversationId(me, other));
      var sorted := SortByCreatedAt(found);
      assert forall i :: 0 <= i < |sorted| ==> sorted[i] in multiset(found);
      assert forall i :: 0 <= i < |store| && store[i].conversationId == ConversationId(me, other)
               ==> store[i] in multiset(sorted) by {
        forall i | 0 <= i < |store| && store[i].conversationId == ConversationId(me, other)
          ensures store[i] in multiset(sorted)
        {
          assert store[i] in multiset(store);
        }
      }
      Json(sorted)
  }

  /** Both participants fetch the same conversation. */
  lemma SameConversationForBoth(store: seq<Message>, me: string, other: string, storeUp: bool)
    ensures GetConversation(store, me, other, storeUp) == GetConversation(store, other, me, storeUp)
  {
    Commutative(me, other);
  }

  /** When creation times strictly increase along the store, the fetch returns the records in store order. */
  lemma {:induction false} OrderedStoreFetchedInStoreOrder(store: seq<Message>, me: string, other: string)
    requires forall i, j :: 0 <= i < j < |store| ==> store[i].createdAt < store[j].createdAt
    ensures GetConversation(store, me, other, true) == Json(ByConversation(store, ConversationId(me, other)))
  {
    var cid := ConversationId(me, other);
    ByConversationKeepsOrder(store, cid);
    SortKeepsSortedInput(ByConversation(store, cid));
  }

  lemma {:induction false} ByConversationKeepsOrder(store: seq<Message>, cid: string)
    requires forall i, j :: 0 <= i < j < |store| ==> store[i].createdAt < store[j].createdAt
    ensures SortedByCreatedAt(ByConversation(store, cid))
  {
    if store != [] {
      var rest := ByConversation(store[1..], cid);
      ByConversationKeepsOrder(store[1..], cid);
      if store[0].conversationId == cid {
        forall k | 0 <= k < |rest|
          ensures store[0].createdAt <= rest[k].createdAt
        {
          assert rest[k] in multiset(rest);
          assert rest[k] in multiset(store[1..]);
          var j :| 0 <= j < |store[1..]| && store[1..][j] == rest[k];
          assert store[j + 1] == rest[k];
        }
      }
    }
  }

  /** A record appended to the store lands at the end of its own conversation and nowhere else. */
  lemma {:induction false} ByConversationAppend(store: seq<Message>, m: Message, cid: string)
    ensures ByConversation(store + [m], cid)
            == ByConversation(store, cid) + (if m.conversationId == cid then [m] else [])
  {
    if store == [] {
      assert [] + [m] == [m];
    } else {
      assert (store + [m])[1..] == store[1..] + [m];
      ByConversationAppend(store[1..], m, cid);
    }
  }
}
