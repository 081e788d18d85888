/**
 * The message record of server/models/Message.js: the schema's fields, the
 * status enum with its default, and what `Message.create` accepts.
 */
module MessageSchema {
  import opened Wrappers
  import opened Addressing

  /** The status enum; a stored or pushed record holds exactly one of these. */
  datatype Status = Sent | Delivered | Seen

  /** The enum's spelling on the wire and in the store. */
  function StatusName(s: Status): string
  {
    match s
    case Sent => "sent"
    case Delivered => "delivered"
    case Seen => "seen"
  }

  /** The enum validator: only the three spellings name a status. */
  function ParseStatus(name: string): (r: Option<Status>)
    ensures r.Some? <==> name == "sent" || name == "delivered" || name == "seen"
    ensures r.Some? ==> StatusName(r.value) == name
  {
    if name == "sent" then Some(Sent)
    else if name == "delivered" then Some(Delivered)
    else if name == "seen" then Some(Seen)
    else None
  }

  lemma StatusNameRoundTrip(s: Status)
    ensures ParseStatus(StatusName(s)) == Some(s)
  {
  }

  /** Position in the lifecycle sent, delivered, seen. */
  function Rank(s: Status): nat
  {
    match s
    case Sent => 0
    case Delivered => 1
    case Seen => 2
  }

  /** `b` is `a` or a later stage of the lifecycle. */
  predicate AtOrAfter(a: Status, b: Status)
  {
    Rank(a) <= Rank(b)
  }

  /**
   * A created record: the schema's four required fields, the status, and
   * the `createdAt` timestamp that `timestamps: true` adds.
   */
  datatype Message = Message(
    sender: string,
    receiver: string,
    text: string,
    conversationId: string,
    status: Status,
    createdAt: nat)

  /** The document passed to `Message.create`; an absent field is `None`. */
  datatype Draft = Draft(
    sender: Option<string>,
    receiver: Option<string>,
    text: Option<string>,
    conversationId: Option<string>,
    status: Option<string>)

  datatype Field = SenderField | ReceiverField | TextField | ConversationIdField | StatusField

  datatype CreateError = ValidationError(paths: set<Field>) | StoreUnavailable

  predicate IsHexDigit(c: char)
  {
    '0' <= c <= '9' || 'a' <= c <= 'f'
  }

  /** A string that casts to an ObjectId: 24 hexadecimal digits. */
  predicate IsObjectId(s: string)
  {
    |s| == 24 && forall i :: 0 <= i < |s| ==> IsHexDigit(s[i])
  }

  lemma ObjectIdIsWellFormed(s: string)
    requires IsObjectId(s)
    ensures WellFormedId(s)
  {
  }

  /** A required ObjectId path: present and castable. */
  predicate ObjectIdPathOk(v: Option<string>)
  {
    v.Some? && IsObjectId(v.value)
  }

  /** A required String path: present and not the empty string. */
  predicate StringPathOk(v: Option<string>)
  {
    v.Some? && v.value != ""
  }

  /** The status path: absent (the default applies) or one of the enum values. */
  predicate StatusPathOk(v: Option<string>)
  {
    v.None? || ParseStatus(v.value).Some?
  }

  /** Every path whose validator fails; validation reports them all at once. */
  function FailingPaths(d: Draft): set<Field>
  {
    (if ObjectIdPathOk(d.sender) then {} else {SenderField})
    + (if ObjectIdPathOk(d.receiver) then {} else {ReceiverField})
    + (if StringPathOk(d.text) then {} else {TextField})
    + (if StringPathOk(d.conversationId) then {} else {ConversationIdField})
    + (if StatusPathOk(d.status) then {} else {StatusField})
  }

  /** The status a valid draft is stored with: `default: "sent"`. */
  function StatusOf(v: Option<string>): (s: Status)
    requires StatusPathOk(v)
    ensures v.None? ==> s == Sent
    ensures v.Some? ==> StatusName(s) == v.value
  {
    if v.None? then Sent else ParseStatus(v.value).value
  }

  /**
   * `Message.create(d)` at time `now`: validation first, then the write,
   * which fails when the store is unreachable.
   */
  function Create(d: Draft, now: nat, storeUp: bool): (r: Result<Message, CreateError>)
    ensures r.Ok? <==> storeUp && ObjectIdPathOk(d.sender) && ObjectIdPathOk(d.receiver)
                       && StringPathOk(d.text) && StringPathOk(d.conversationId) && StatusPathOk(d.status)
    ensures r.Ok? ==> r.value.sender == d.sender.value && r.value.receiver == d.receiver.value
                      && r.value.text == d.text.value && r.value.conversationId == d.conversationId.value
                      && r.value.createdAt == now
    ensures r.Ok? && d.status.None? ==> r.value.status == Sent
    ensures r.Ok? && d.status.Some? ==> StatusName(r.value.status) == d.status.value
    ensures d.sender.None? || d.receiver.None? || d.text.None? || d.conversationId.None? ==> r.Failure?
    ensures r.Failure? && r.error.ValidationError? ==>
              r.error.paths != {}
              && (SenderField in r.error.paths <==> !ObjectIdPathOk(d.sender))
              && (ReceiverField in r.error.paths <==> !ObjectIdPathOk(d.receiver))
              && (TextField in r.error.paths <==> !StringPathOk(d.text))
              && (ConversationIdField in r.error.paths <==> !StringPathOk(d.conversationId))
              && (StatusField in r.error.paths <==> !StatusPathOk(d.status))
    ensures FailingPaths(d) != {} ==> r == Failure(ValidationError(FailingPaths(d)))
    ensures !storeUp && FailingPaths(d) == {} ==> r == Failure(StoreUnavailable)
  {
    var bad := FailingPaths(d);
    if bad != {} then
      Failure(ValidationError(bad))
    else if !storeUp then Failure(StoreUnavailable)
    else Ok(Message(d.sender.value, d.receiver.value, d.text.value, d.conversationId.value,
                    StatusOf(d.status), now))
  }
}
