/**
 * The chat page of client/src/pages/Chat.jsx: the pure state updaters the
 * socket handlers apply (message cache, unread counters, sent requests),
 * the predicates that decide when to acknowledge a conversation as seen and
 * when a message may be sent, and a view object whose methods sequence them.
 */
module ChatClient {
  import opened Wrappers
  import opened Addressing
  import opened MessageSchema

  /** The message cache: conversation key to the messages shown for it. */
  type Cache = map<string, seq<Message>>

  /** `prev[cid] || []` */
  function Lookup(messages: Cache, cid: string): seq<Message>
  {
    if cid in messages then messages[cid] else []
  }

  /** `prev[id] || 0` */
  function UnreadOf(unread: map<string, nat>, id: string): nat
  {
    if id in unread then unread[id] else 0
  }

  /* ---------------- message cache ---------------- */

  /** The `newMessage` updater: appends `msg` to its conversation, creating the entry if absent. */
  function AppendIncoming(messages: Cache, msg: Message): (r: Cache)
    ensures var cid := ConversationId(msg.sender, msg.receiver);
            && r.Keys == messages.Keys + {cid}
            && r[cid] == Lookup(messages, cid) + [msg]
            && forall k :: k in messages && k != cid ==> r[k] == messages[k]
  {
    var cid := ConversationId(msg.sender, msg.receiver);
    messages[cid := Lookup(messages, cid) + [msg]]
  }

  /** `m.sender === me ? { ...m, status: "seen" } : m` over a list. */
  function OwnSeen(msgs: seq<Message>, me: string): (r: seq<Message>)
    ensures |r| == |msgs|
    ensures forall i :: 0 <= i < |msgs| ==>
              r[i] == if msgs[i].sender == me then msgs[i].(status := Seen) else msgs[i]
  {
    if msgs == [] then []
    else [if msgs[0].sender == me then msgs[0].(status := Seen) else msgs[0]] + OwnSeen(msgs[1..], me)
  }

  /** The `messageSeen` updater: the messages `me` sent in `cid` become seen. */
  function MarkOwnSeen(messages: Cache, cid: string, me: string): (r: Cache)
    ensures r.Keys == messages.Keys + {cid}
    ensures |r[cid]| == |Lookup(messages, cid)|
    ensures forall i :: 0 <= i < |r[cid]| ==>
              var m := Lookup(messages, cid)[i];
              && (m.sender == me ==> r[cid][i] == m.(status := Seen))
              && (m.sender != me ==> r[cid][i] == m)
    ensures forall k :: k in messages && k != cid ==> r[k] == messages[k]
  {
    messages[cid := OwnSeen(Lookup(messages, cid), me)]
  }

  lemma MarkOwnSeenIdempotent(messages: Cache, cid: string, me: string)
    ensures MarkOwnSeen(MarkOwnSeen(messages, cid, me), cid, me) == MarkOwnSeen(messages, cid, me)
  {
    var once := MarkOwnSeen(messages, cid, me);
    var twice := MarkOwnSeen(once, cid, me);
    assert twice[cid] == once[cid];
    assert twice == once;
  }

  /** The `messageSeen` updater never moves a cached status backwards. */
  lemma MarkOwnSeenMonotone(messages: Cache, cid: string, me: string)
    ensures forall i :: 0 <= i < |Lookup(messages, cid)| ==>
              AtOrAfter(Lookup(messages, cid)[i].status, MarkOwnSeen(messages, cid, me)[cid][i].status)
  {
  }

  /* ---------------- unread counters ---------------- */

  /** Whether an incoming message counts as unread: not from the open conversation, not from me. */
  predicate CountsAsUnread(msg: Message, selected: Option<string>, me: string)
  {
    selected != Some(msg.sender) && msg.sender != me
  }

  /** The unread updater run on `newMessage`. */
  function CountUnread(unread: map<string, nat>, msg: Message, selected: Option<string>, me: string): (r: map<string, nat>)
    ensures CountsAsUnread(msg, selected, me) ==>
              msg.sender in r && r[msg.sender] == UnreadOf(unread, msg.sender) + 1
              && r.Keys == unread.Keys + {msg.sender}
    ensures !CountsAsUnread(msg, selected, me) ==> r == unread
    ensures forall k :: k in unread && k != msg.sender ==> k in r && r[k] == unread[k]
  {
    if CountsAsUnread(msg, selected, me) then unread[msg.sender := UnreadOf(unread, msg.sender) + 1]
    else unread
  }

  /** Counters only grow on arrival, and only the sender's, by at most one. */
  lemma CountUnreadMonotone(unread: map<string, nat>, msg: Message, selected: Option<string>, me: string)
    ensures forall k :: UnreadOf(unread, k) <= UnreadOf(CountUnread(unread, msg, selected, me), k)
    ensures forall k :: k != msg.sender ==>
              UnreadOf(CountUnread(unread, msg, selected, me), k) == UnreadOf(unread, k)
  {
  }

  /** Opening a conversation clears that peer's counter. */
  function ResetUnread(unread: map<string, nat>, peer: string): (r: map<string, nat>)
    ensures peer in r && r[peer] == 0
    ensures r.Keys == unread.Keys + {peer}
    ensures forall k :: k in unread && k != peer ==> r[k] == unread[k]
  {
    unread[peer := 0]
  }

  /* ---------------- seen acknowledgement ---------------- */

  /** A message from `peer` to `me` not yet seen. */
  predicate UnseenFrom(m: Message, peer: string, me: string)
  {
    m.sender == peer && m.receiver == me && m.status != Seen
  }

  /** `shouldEmitSeen` / `hasUnseenIncoming`: some message of `peer` to `me` is not seen yet. */
  function HasUnseenIncoming(msgs: seq<Message>, peer: string, me: string): (r: bool)
    ensures r <==> exists i :: 0 <= i < |msgs| && UnseenFrom(msgs[i], peer, me)
  {
    if msgs == [] then false
    else if UnseenFrom(msgs[0], peer, me) then true
    else
      assert forall i :: 1 <= i < |msgs| ==> msgs[i] == msgs[1..][i - 1];
      HasUnseenIncoming(msgs[1..], peer, me)
  }

  /* ---------------- connection and request helpers ---------------- */

  /**
   * A connection record; `sender` and `receiver` are the populated users'
   * ids, `None` where the reference is empty.
   */
  datatype Connection = Connection(sender: Option<string>, receiver: Option<string>, status: string)

  predicate Involves(c: Connection, id: string)
  {
    c.sender == Some(id) || c.receiver == Some(id)
  }

  /** `isConnected(id)` */
  function IsConnected(connections: seq<Connection>, id: string): (r: bool)
    ensures r <==> exists i :: 0 <= i < |connections| && Involves(connections[i], id)
                                && connections[i].status != "disconnected"
  {
    if connections == [] then false
    else if Involves(connections[0], id) && connections[0].status != "disconnected" then true
    else
      assert forall i :: 1 <= i < |connections| ==> connections[i] == connections[1..][i - 1];
      IsConnected(connections[1..], id)
  }

  /** A sent request's `receiver`: a bare id string, a populated user, or nothing. */
  datatype RequestReceiver = ReceiverId(id: string) | ReceiverUser(userId: string) | NoReceiver

  datatype SentRequest = SentRequest(receiver: RequestReceiver)

  /** `r.receiver === id || r.receiver?._id === id` */
  predicate Names(r: SentRequest, id: string)
  {
    r.receiver == ReceiverId(id) || r.receiver == ReceiverUser(id)
  }

  /** `isRequested(id)` */
  function IsRequested(sent: seq<SentRequest>, id: string): (r: bool)
    ensures r <==> exists i :: 0 <= i < |sent| && Names(sent[i], id)
  {
    if sent == [] then false
    else if Names(sent[0], id) then true
    else
      assert forall i :: 1 <= i < |sent| ==> sent[i] == sent[1..][i - 1];
      IsRequested(sent[1..], id)
  }

  /** `prev.some((r) => r.receiver?._id === id)`: only the populated form is looked at. */
  function HasUserReceiver(sent: seq<SentRequest>, id: string): (r: bool)
    ensures r <==> exists i :: 0 <= i < |sent| && sent[i].receiver == ReceiverUser(id)
  {
    if sent == [] then false
    else if sent[0].receiver == ReceiverUser(id) then true
    else
      assert forall i :: 1 <= i < |sent| ==> sent[i] == sent[1..][i - 1];
      HasUserReceiver(sent[1..], id)
  }

  /** The `sentRequests` updater after a follow request succeeds. */
  function AddSentRequest(sent: seq<SentRequest>, id: string): (r: seq<SentRequest>)
    ensures HasUserReceiver(sent, id) ==> r == sent
    ensures !HasUserReceiver(sent, id) ==> r == sent + [SentRequest(ReceiverUser(id))]
  {
    if HasUserReceiver(sent, id) then sent else sent + [SentRequest(ReceiverUser(id))]
  }

  /** After a follow, the user shows as requested, and a second follow changes nothing. */
  lemma AddSentRequestProperties(sent: seq<SentRequest>, id: string)
    ensures IsRequested(AddSentRequest(sent, id), id)
    ensures AddSentRequest(AddSentRequest(sent, id), id) == AddSentRequest(sent, id)
    ensures forall k :: k != id ==> IsRequested(AddSentRequest(sent, id), k) == IsRequested(sent, k)
  {
    var r := AddSentRequest(sent, id);
    if HasUserReceiver(sent, id) {
      var i :| 0 <= i < |sent| && sent[i].receiver == ReceiverUser(id);
      assert Names(r[i], id);
    } else {
      assert Names(r[|sent|], id);
      assert r[|sent|].receiver == ReceiverUser(id);
      forall k | k != id
        ensures IsRequested(r, k) == IsRequested(sent, k)
      {
        if IsRequested(r, k) {
          var j :| 0 <= j < |r| && Names(r[j], k);
          assert j < |sent| && Names(sent[j], k);
        }
        if IsRequested(sent, k) {
          var j :| 0 <= j < |sent| && Names(sent[j], k);
          assert Names(r[j], k);
        }
      }
    }
  }

  /**
   * The dedupe tests only the populated form: a request listed by bare id
   * already shows as requested, yet following again appends a second entry.
   * The page itself never gets there: the Follow button is only rendered for
   * an id that is not requested (client/src/pages/Chat.jsx:429), so this is a
   * property of the updater alone.
   */
  lemma DedupeMissesBareIdForm(id: string)
    ensures IsRequested([SentRequest(ReceiverId(id))], id)
    ensures AddSentRequest([SentRequest(ReceiverId(id))], id)
            == [SentRequest(ReceiverId(id)), SentRequest(ReceiverUser(id))]
  {
    assert Names([SentRequest(ReceiverId(id))][0], id);
  }

  /* ---------------- the send guard ---------------- */

  /** The characters `String.prototype.trim` removes: white space and line terminators. */
  predicate IsJsWhitespace(c: char)
  {
    c == '\t' || c == '\n' || c == '\U{000B}' || c == '\U{000C}' || c == '\r' || c == ' '
    || c == '\U{00A0}' || c == '\U{1680}' || ('\U{2000}' <= c <= '\U{200A}')
    || c == '\U{2028}' || c == '\U{2029}' || c == '\U{202F}' || c == '\U{205F}'
    || c == '\U{3000}' || c == '\U{FEFF}'
  }

  /** Every character of `w` is one `trim` removes. */
  predicate AllWhite(w: string)
  {
    forall k :: 0 <= k < |w| ==> IsJsWhitespace(w[k])
  }

  function TrimStart(s: string): (r: string)
    ensures |r| <= |s| && r == s[|s| - |r|..]
    ensures AllWhite(s[..|s| - |r|])
    ensures r == [] || !IsJsWhitespace(r[0])
  {
    if s != [] && IsJsWhitespace(s[0]) then
      var r := TrimStart(s[1..]);
      assert s[..|s| - |r|] == [s[0]] + s[1..][..|s[1..]| - |r|];
      r
    else s
  }

  function TrimEnd(s: string): (r: string)
    ensures |r| <= |s| && r == s[..|r|]
    ensures AllWhite(s[|r|..])
    ensures r == [] || !IsJsWhitespace(r[|r| - 1])
  {
    if s != [] && IsJsWhitespace(s[|s| - 1]) then
      var r := TrimEnd(s[..|s| - 1]);
      assert s[|r|..] == s[..|s| - 1][|r|..] + [s[|s| - 1]];
      r
    else s
  }

  /** `s.trim()`: the slice of `s` between its leading and trailing white space. */
  function Trim(s: string): (r: string)
    ensures r == [] || (!IsJsWhitespace(r[0]) && !IsJsWhitespace(r[|r| - 1]))
    ensures exists i, j :: 0 <= i <= j <= |s| && r == s[i..j] && AllWhite(s[..i]) && AllWhite(s[j..])
  {
    var t := TrimStart(s);
    var r := TrimEnd(t);
    SliceBetween(s, t, r);
    r
  }

  /** A prefix `r` of a suffix `t` of `s`, with white space removed around it, is a slice of `s`. */
  lemma SliceBetween(s: string, t: string, r: string)
    requires |t| <= |s| && t == s[|s| - |t|..] && AllWhite(s[..|s| - |t|])
    requires |r| <= |t| && r == t[..|r|] && AllWhite(t[|r|..])
    ensures exists i, j :: 0 <= i <= j <= |s| && r == s[i..j] && AllWhite(s[..i]) && AllWhite(s[j..])
  {
    var i := |s| - |t|;
    var j := i + |r|;
    assert t[|r|..] == s[j..];
    assert r == s[i..j];
  }

  /** `!message.trim()` holds exactly for blank input. */
  lemma TrimEmptyIff(s: string)
    ensures Trim(s) == [] <==> AllWhite(s)
  {
    var t := TrimStart(s);
    assert t != [] ==> t[0] == s[|s| - |t|];
    assert TrimEnd(t) == [] ==> t[|TrimEnd(t)|..] == t;
    assert t == [] ==> s[..|s| - |t|] == s;
  }

  predicate HasVisibleText(s: string)
  {
    exists i :: 0 <= i < |s| && !IsJsWhitespace(s[i])
  }

  /** The `sendMessage` guard: non-blank input, a selected peer, and a live connection with that peer. */
  function CanSend(input: string, selected: Option<string>, connections: seq<Connection>): (r: bool)
    ensures r <==> HasVisibleText(input) && selected.Some? && IsConnected(connections, selected.value)
  {
    TrimEmptyIff(input);
    Trim(input) != [] && selected.Some? && IsConnected(connections, selected.value)
  }

  /* ---------------- the view ---------------- */

  /** What the page emits on its socket. */
  datatype ClientEmit =
    | Join(userId: string)
    | SendPrivate(sender: string, receiver: string, text: string)
    | SendSeen(sender: string, receiver: string)

  /** The notification banner after a follow or disconnect request. */
  datatype Notice = NoNotice | FollowSent | FollowFailed | Disconnected | DisconnectFailed

  /** The seen-acknowledgement effect: emitted when the open conversation has unseen messages to me. */
  function SeenEffect(messages: Cache, selected: Option<string>, me: string): (e: seq<ClientEmit>)
    ensures |e| <= 1
    ensures e != [] <==> selected.Some? && HasUnseenIncoming(Lookup(messages, ConversationId(me, selected.value)), selected.value, me)
    ensures e != [] ==> e == [SendSeen(selected.value, me)]
  {
    if selected.Some? && HasUnseenIncoming(Lookup(messages, ConversationId(me, selected.value)), selected.value, me)
    then [SendSeen(selected.value, me)]
    else []
  }

  class ChatView {
    const me: string
    var selected: Option<string>
    var messages: Cache
    var unread: map<string, nat>
    var connections: seq<Connection>
    var sentRequests: seq<SentRequest>
    var onlineUsers: seq<string>
    var input: string
    var notice: Notice
    /** Socket emits, oldest first. */
    var outbox: seq<ClientEmit>

    /** The page once the current user, connections and sent requests have loaded: it joins its room. */
    constructor (user: string, conns: seq<Connection>, sent: seq<SentRequest>)
      ensures me == user && connections == conns && sentRequests == sent
      ensures selected == None && messages == map[] && unread == map[] && onlineUsers == []
      ensures input == "" && notice == NoNotice
      ensures outbox == [Join(user)]
    {
      me := user;
      selected := None;
      messages := map[];
      unread := map[];
      connections := conns;
      sentRequests := sent;
      onlineUsers := [];
      input := "";
      notice := NoNotice;
      outbox := [Join(user)];
    }

    /** `newMessage`: cache it, count it as unread if due, and rerun the seen effect. */
    method OnNewMessage(msg: Message)
      modifies this`messages, this`unread, this`outbox
      ensures messages == AppendIncoming(old(messages), msg)
      ensures unread == CountUnread(old(unread), msg, selected, me)
      ensures outbox == old(outbox) + SeenEffect(messages, selected, me)
    {
      messages := AppendIncoming(messages, msg);
      unread := CountUnread(unread, msg, selected, me);
      outbox := outbox + SeenEffect(messages, selected, me);
    }

    /** `messageSeen`: my messages in that conversation show as seen; the seen effect reruns. */
    method OnMessageSeen(cid: string)
      modifies this`messages, this`outbox
      ensures messages == MarkOwnSeen(old(messages), cid, me)
      ensures outbox == old(outbox) + SeenEffect(messages, selected, me)
    {
      messages := MarkOwnSeen(messages, cid, me);
      outbox := outbox + SeenEffect(messages, selected, me);
    }

    /** `onlineUsers`: `setOnlineUsers(u || [])`. */
    method OnOnlineUsers(u: Option<seq<string>>)
      modifies this`onlineUsers
      ensures onlineUsers == if u.Some? then u.value else []
    {
      onlineUsers := if u.Some? then u.value else [];
    }

    /**
     * Clicking a peer in the list. Choosing a different peer reruns the socket
     * effect (which joins again), clears the peer's unread counter and reruns
     * the seen effect over the cache; clicking the peer already open sets the
     * same value, so no effect runs and nothing changes.
     */
    method Select(peer: string)
      modifies this`selected, this`unread, this`outbox
      ensures selected == Some(peer)
      ensures old(selected) == Some(peer) ==> unread == old(unread) && outbox == old(outbox)
      ensures old(selected) != Some(peer) ==>
                unread == ResetUnread(old(unread), peer)
                && outbox == old(outbox) + [Join(me)] + SeenEffect(messages, selected, me)
    {
      if selected != Some(peer) {
        selected := Some(peer);
        outbox := outbox + [Join(me)];
        unread := ResetUnread(unread, peer);
        outbox := outbox + SeenEffect(messages, selected, me);
      }
    }

    /**
     * The conversation fetch has answered: the cache entry is replaced, the
     * loader emits `seenMessage` when due, and the seen effect, rerun because
     * the cache changed, emits it a second time.
     */
    method OnConversationLoaded(data: Option<seq<Message>>)
      requires selected.Some?
      modifies this`messages, this`outbox
      ensures var msgs := if data.Some? then data.value else [];
              && messages == old(messages)[ConversationId(me, selected.value) := msgs]
              && outbox == old(outbox) + SeenEffect(messages, selected, me) + SeenEffect(messages, selected, me)
              && (outbox != old(outbox) <==> HasUnseenIncoming(msgs, selected.value, me))
    {
      var peer := selected.value;
      var msgs := if data.Some? then data.value else [];
      messages := messages[ConversationId(me, peer) := msgs];
      if HasUnseenIncoming(msgs, peer, me) {
        outbox := outbox + [SendSeen(peer, me)];
      }
      outbox := outbox + SeenEffect(messages, selected, me);
    }

    /** Typing into the input box. */
    method Type(text: string)
      modifies this`input
      ensures input == text
    {
      input := text;
    }

    /** `sendMessage`: when the guard passes, emits the untrimmed input once and clears it. */
    method SendMessage() returns (sent: bool)
      modifies this`outbox, this`input
      ensures sent <==> CanSend(old(input), selected, connections)
      ensures sent ==> outbox == old(outbox) + [SendPrivate(me, selected.value, old(input))] && input == ""
      ensures !sent ==> outbox == old(outbox) && input == old(input)
    {
      var text := input;
      sent := CanSend(text, selected, connections);
      if sent {
        var peer := selected.value;
        outbox := outbox + [SendPrivate(me, peer, text)];
        input := "";
      }
    }

    /** `sendFollow`: after the request succeeds the peer is recorded once; either way a notice shows. */
    method SendFollow(id: string, postOk: bool)
      modifies this`sentRequests, this`notice
      ensures postOk ==> sentRequests == AddSentRequest(old(sentRequests), id) && notice == FollowSent
      ensures !postOk ==> sentRequests == old(sentRequests) && notice == FollowFailed
    {
      if postOk {
        sentRequests := AddSentRequest(sentRequests, id);
        notice := FollowSent;
      } else {
        notice := FollowFailed;
      }
    }

    /**
     * `disconnectUser`: once the request succeeds the open conversation is
     * closed, which reruns the socket effect (joining again) when a peer was
     * open, and the connections are reloaded; a failure of either request
     * leaves the failure notice, and a failed reload keeps the old connections.
     */
    method DisconnectPeer(postOk: bool, reloadOk: bool, reloaded: Option<seq<Connection>>)
      modifies this`selected, this`connections, this`outbox, this`notice
      ensures !postOk ==>
                selected == old(selected) && connections == old(connections)
                && outbox == old(outbox) && notice == DisconnectFailed
      ensures postOk ==> selected == None
      ensures postOk ==> outbox == old(outbox) + (if old(selected).Some? then [Join(me)] else [])
      ensures postOk && reloadOk ==>
                connections == (if reloaded.Some? then reloaded.value else []) && notice == Disconnected
      ensures postOk && !reloadOk ==> connections == old(connections) && notice == DisconnectFailed
    {
      if !postOk {
        notice := DisconnectFailed;
      } else {
        notice := Disconnected;
        if selected.Some? {
          selected := None;
          outbox := outbox + [Join(me)] + SeenEffect(messages, selected, me);
        }
        if reloadOk {
          connections := if reloaded.Some? then reloaded.value else [];
        } else {
          notice := DisconnectFailed;
        }
      }
    }
  }
}
