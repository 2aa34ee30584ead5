/**
 * The ContactMessage entity (app/domain/entities/contact_message.py): a
 * visitor's message with a three-state lifecycle, pending -> read ->
 * replied. The status is a free string that construction restricts to the
 * three known values.
 */
module ContactMessages {
  import opened Common
  import opened Patterns

  const MaxNameLength: nat := 100
  const MinMessageLength: nat := 10
  const MaxMessageLength: nat := 2000

  const Pending: string := "pending"
  const Read: string := "read"
  const Replied: string := "replied"

  /** VALID_MESSAGE_STATUSES. */
  predicate KnownStatus(s: string) {
    s == Pending || s == Read || s == Replied
  }

  datatype MessageRecord = MessageRecord(
    id: Id,
    name: string,
    email: string,
    message: string,
    createdAt: Timestamp,
    status: string,
    readAt: Option<Timestamp>,
    repliedAt: Option<Timestamp>)

  predicate MessageTextOk(m: string) {
    !IsBlank(m) && MinMessageLength <= |m| <= MaxMessageLength
  }

  /** The invariant every constructed ContactMessage satisfies. */
  predicate ValidMessage(r: MessageRecord) {
    RequiredTextOk(r.name, MaxNameLength) && EmailOk(r.email) && MessageTextOk(r.message) && KnownStatus(r.status)
  }

  function CheckName(s: string): Outcome {
    CheckRequiredText(s, InvalidName, "name", MaxNameLength)
  }

  /** `_validate_message`: blank, then too short, then too long. */
  function CheckMessage(m: string): (o: Outcome)
    ensures o.Pass? <==> MessageTextOk(m)
    ensures IsBlank(m) ==> o == Fail(EmptyField("message"))
    ensures !IsBlank(m) && |m| < MinMessageLength ==> o == Fail(InvalidLength("message", AtLeast(MinMessageLength)))
    ensures !IsBlank(m) && |m| > MaxMessageLength ==> o == Fail(InvalidLength("message", AtMost(MaxMessageLength)))
  {
    if IsBlank(m) then Fail(EmptyField("message"))
    else if |m| < MinMessageLength then Fail(InvalidLength("message", AtLeast(MinMessageLength)))
    else if |m| > MaxMessageLength then Fail(InvalidLength("message", AtMost(MaxMessageLength)))
    else Pass
  }

  /** `_validate_status`: anything but the three known statuses raises a plain DomainError. */
  function CheckStatus(s: string): (o: Outcome)
    ensures o.Pass? <==> KnownStatus(s)
    ensures o.Fail? ==> o == Fail(InvalidStatus(s))
  {
    if KnownStatus(s) then Pass else Fail(InvalidStatus(s))
  }

  /** `__post_init__`: name, email, message and status, in that order; nothing is coerced. */
  function Construct(r: MessageRecord): (res: Result<MessageRecord, DomainError>)
    ensures res.Success? <==> ValidMessage(r)
    ensures res.Success? ==> res.value == r
  {
    var status := r.status;
    :- CheckName(r.name);
    :- CheckEmail(r.email);
    :- CheckMessage(r.message);
    :- CheckStatus(status);
    Success(r)
  }

  /** A message of 10 characters is accepted, one of 9 refused; 2000 accepted, 2001 refused. */
  lemma MessageLengthBoundaries(m: string)
    requires !IsBlank(m)
    ensures |m| == MinMessageLength ==> CheckMessage(m).Pass?
    ensures |m| == MinMessageLength - 1 ==> CheckMessage(m) == Fail(InvalidLength("message", AtLeast(MinMessageLength)))
    ensures |m| == MaxMessageLength ==> CheckMessage(m).Pass?
    ensures |m| == MaxMessageLength + 1 ==> CheckMessage(m) == Fail(InvalidLength("message", AtMost(MaxMessageLength)))
  {
  }

  /** An unknown status such as "archived" is refused once the other fields are fine. */
  lemma UnknownStatusRefused(r: MessageRecord)
    requires RequiredTextOk(r.name, MaxNameLength) && EmailOk(r.email) && MessageTextOk(r.message)
    requires r.status == "archived"
    ensures Construct(r) == Failure(InvalidStatus("archived"))
  {
    assert r.status[0] != Pending[0] && r.status[0] != Read[0] && r.status[0] != Replied[0];
  }

  /** `ContactMessage.create`: status pending, nothing read or replied yet. */
  function NewRecord(name: string, email: string, message: string, newId: Id, now: Timestamp): (r: MessageRecord)
    ensures r.status == Pending && r.readAt.None? && r.repliedAt.None? && r.createdAt == now
  {
    MessageRecord(newId, name, email, message, now, Pending, None, None)
  }

  // ---------------------------------------------------------------------
  // The lifecycle

  /** `mark_as_read`: only a pending message changes, to read, with read_at set to now. */
  function MarkedRead(r: MessageRecord, now: Timestamp): (t: MessageRecord)
    ensures r.status == Pending ==> t == r.(status := Read, readAt := Some(now))
    ensures r.status != Pending ==> t == r
  {
    if r.status == Pending then r.(status := Read, readAt := Some(now)) else r
  }

  /**
   * `mark_as_replied`: a pending or read message becomes replied with
   * replied_at set to now; read_at is filled with the same time only when
   * it was still None.
   */
  function MarkedReplied(r: MessageRecord, now: Timestamp): (t: MessageRecord)
    ensures (r.status == Pending || r.status == Read) ==>
              t == r.(status := Replied, repliedAt := Some(now), readAt := if r.readAt.None? then Some(now) else r.readAt)
    ensures !(r.status == Pending || r.status == Read) ==> t == r
  {
    if r.status == Pending || r.status == Read then
      r.(status := Replied, repliedAt := Some(now), readAt := if r.readAt.None? then Some(now) else r.readAt)
    else r
  }

  /** The position of a status in the lifecycle. */
  function Rank(s: string): (k: nat)
    ensures k <= 2
    ensures s == Replied <==> k == 2
  {
    if s == Replied then 2 else if s == Read then 1 else 0
  }

  /** A lifecycle-consistent message: read_at is set once read, replied_at exactly once replied, in that order. */
  predicate Coherent(r: MessageRecord) {
    KnownStatus(r.status)
    && (r.status == Pending ==> r.readAt.None? && r.repliedAt.None?)
    && (r.status == Read ==> r.readAt.Some? && r.repliedAt.None?)
    && (r.status == Replied ==> r.readAt.Some? && r.repliedAt.Some? && r.readAt.value <= r.repliedAt.value)
  }

  /** `create` starts a coherent lifecycle. */
  lemma CreatedIsCoherent(name: string, email: string, message: string, newId: Id, now: Timestamp)
    ensures Coherent(NewRecord(name, email, message, newId, now))
  {
  }

  /**
   * Both transitions keep a message valid and keep the lifecycle coherent
   * as long as the clock does not run backward, never move the status
   * backward, and leave id, content and created_at untouched.
   */
  lemma TransitionsKeepLifecycle(r: MessageRecord, now: Timestamp)
    requires Coherent(r)
    requires r.readAt.Some? ==> r.readAt.value <= now
    ensures Coherent(MarkedRead(r, now)) && Coherent(MarkedReplied(r, now))
    ensures Rank(MarkedRead(r, now).status) >= Rank(r.status)
    ensures Rank(MarkedReplied(r, now).status) >= Rank(r.status)
    ensures ValidMessage(r) ==> ValidMessage(MarkedRead(r, now)) && ValidMessage(MarkedReplied(r, now))
    ensures MarkedRead(r, now).(status := r.status, readAt := r.readAt) == r
    ensures MarkedReplied(r, now).(status := r.status, readAt := r.readAt, repliedAt := r.repliedAt) == r
  {
  }

  /** After `mark_as_replied` the message is replied, whatever its known status was before. */
  lemma RepliedIsFinal(r: MessageRecord, now: Timestamp, later: Timestamp)
    requires KnownStatus(r.status)
    ensures MarkedReplied(r, now).status == Replied
    ensures MarkedReplied(MarkedReplied(r, now), later) == MarkedReplied(r, now)
    ensures MarkedRead(MarkedReplied(r, now), later) == MarkedReplied(r, now)
  {
  }

  /** Marking as read twice changes nothing the second time. */
  lemma MarkReadIdempotent(r: MessageRecord, now: Timestamp, later: Timestamp)
    requires KnownStatus(r.status)
    ensures MarkedRead(MarkedRead(r, now), later) == MarkedRead(r, now)
  {
  }

  /** Replying to a message that was never read back-fills read_at with the reply time; an earlier read time is kept. */
  lemma ReadAtBackFilled(r: MessageRecord, now: Timestamp, readTime: Timestamp)
    ensures r.status == Pending && r.readAt.None? ==> MarkedReplied(r, now).readAt == MarkedReplied(r, now).repliedAt
    ensures MarkedReplied(MarkedRead(r.(status := Pending), readTime), now).readAt == Some(readTime)
  {
  }

  /** `is_pending`, `is_read` and `is_replied`. */
  predicate IsPending(r: MessageRecord) { r.status == Pending }
  predicate IsRead(r: MessageRecord) { r.status == Read || r.status == Replied }
  predicate IsReplied(r: MessageRecord) { r.status == Replied }

  /** On a known status exactly one of pending and read holds, and replied implies read. */
  lemma QueriesPartition(r: MessageRecord)
    requires KnownStatus(r.status)
    ensures IsPending(r) != IsRead(r)
    ensures IsReplied(r) ==> IsRead(r)
    ensures IsRead(r) <==> Rank(r.status) >= 1
  {
  }

  // ---------------------------------------------------------------------
  // The entity object

  class ContactMessage {
    var id: Id
    var name: string
    var email: string
    var message: string
    var createdAt: Timestamp
    var status: string
    var readAt: Option<Timestamp>
    var repliedAt: Option<Timestamp>

    function Record(): MessageRecord
      reads this
    {
      MessageRecord(id, name, email, message, createdAt, status, readAt, repliedAt)
    }

    predicate Valid()
      reads this
    {
      ValidMessage(Record())
    }

    constructor Init(r: MessageRecord)
      ensures Record() == r
    {
      id, name, email, message := r.id, r.name, r.email, r.message;
      createdAt, status, readAt, repliedAt := r.createdAt, r.status, r.readAt, r.repliedAt;
    }

    static method Build(r: MessageRecord) returns (res: Result<ContactMessage, DomainError>)
      ensures res.Success? <==> ValidMessage(r)
      ensures res.Success? ==> fresh(res.value) && res.value.Record() == r && res.value.Valid()
      ensures res.Failure? ==> res.error == Construct(r).error
    {
      var c := Construct(r);
      if c.Failure? {
        return Failure(c.error);
      }
      var m := new ContactMessage.Init(c.value);
      return Success(m);
    }

    static method Create(name: string, email: string, message: string, newId: Id, now: Timestamp)
      returns (res: Result<ContactMessage, DomainError>)
      ensures var r := NewRecord(name, email, message, newId, now);
              (res.Success? <==> ValidMessage(r))
              && (res.Success? ==> fresh(res.value) && res.value.Record() == r && res.value.Valid())
              && (res.Failure? ==> res.error == Construct(r).error)
    {
      res := Build(NewRecord(name, email, message, newId, now));
    }

    method MarkAsRead(now: Timestamp)
      modifies this
      ensures Record() == MarkedRead(old(Record()), now)
    {
      if status == Pending {
        status := Read;
        readAt := Some(now);
      }
    }

    method MarkAsReplied(now: Timestamp)
      modifies this
      ensures Record() == MarkedReplied(old(Record()), now)
    {
      if status == Pending || status == Read {
        status := Replied;
        repliedAt := Some(now);
        if readAt.None? {
          readAt := repliedAt;
        }
      }
    }

    method IsPendingNow() returns (b: bool)
      ensures b <==> IsPending(Record())
    {
      b := status == Pending;
    }

    method IsReadNow() returns (b: bool)
      ensures b <==> IsRead(Record())
    {
      b := status == Read || status == Replied;
    }

    method IsRepliedNow() returns (b: bool)
      ensures b <==> IsReplied(Record())
    {
      b := status == Replied;
    }
  }
}
