/** One credit top-up session and what provider notices and refunds do to it. */
module TopUps {
  import opened Wrappers
  import Raffles

  type Time = Raffles.Time

  datatype Provider = MercadoPago | Mock

  datatype SessionStatus =
    | Initiated
    | AwaitingPayment
    | Approved
    | Declined
    | Expired
    | RefundedInFull
    | RefundedInPart

  datatype Session = Session(
    user: nat,
    provider: Provider,
    reference: nat,
    orderId: Option<nat>,
    paymentId: Option<nat>,
    amount: int,
    credited: int,
    refunded: int,
    status: SessionStatus,
    processedAt: Option<Time>)

  datatype NoticeStatus =
    | NoticeApproved
    | NoticeRejected
    | NoticeExpired
    | NoticeRefunded
    | NoticePartiallyRefunded
    | NoticePending

  /** What the provider reports about one payment. */
  datatype Notice = Notice(
    paymentId: nat,
    status: NoticeStatus,
    amount: int,
    reference: Option<nat>,
    orderId: Option<nat>)

  function Opened(user: nat, provider: Provider, reference: nat, orderId: Option<nat>, amount: int): Session {
    Session(user, provider, reference, orderId, None, amount, 0, 0, Initiated, None)
  }

  /** A notice finds a session by reference, by payment id or by order id. */
  predicate Matches(s: Session, n: Notice) {
    || (n.reference.Some? && s.reference == n.reference.value)
    || s.paymentId == Some(n.paymentId)
    || (n.orderId.Some? && s.orderId == n.orderId)
  }

  function StatusFor(status: NoticeStatus): SessionStatus {
    match status
    case NoticeApproved => Approved
    case NoticeRejected => Declined
    case NoticeExpired => Expired
    case NoticeRefunded => RefundedInFull
    case NoticePartiallyRefunded => RefundedInPart
    case NoticePending => AwaitingPayment
  }

  function OrderOf(s: Session, n: Notice): Option<nat> {
    if n.orderId.Some? then n.orderId else s.orderId
  }

  function Credited(s: Session, n: Notice, now: Time): Session {
    s.(paymentId := Some(n.paymentId), orderId := OrderOf(s, n), credited := n.amount,
       status := Approved, processedAt := Some(now))
  }

  function Updated(s: Session, n: Notice, now: Time): Session {
    s.(paymentId := Some(n.paymentId), orderId := OrderOf(s, n),
       status := StatusFor(n.status), processedAt := Some(now))
  }

  function Closed(s: Session, status: SessionStatus, now: Time): Session {
    s.(status := status, processedAt := Some(now))
  }

  function AfterRefund(s: Session, amount: int): Session {
    s.(refunded := s.refunded + amount,
       status := if s.refunded + amount >= s.credited then RefundedInFull else RefundedInPart)
  }

  /** Credited at most once, refunded within the credit, and refundable only right after the approval. */
  ghost predicate SessionFacts(s: Session) {
    && 0 <= s.refunded <= s.credited
    && (s.processedAt.None? ==> s.credited == 0)
    && (s.status == Approved ==> s.credited > 0 && s.refunded == 0)
  }

  /** All top-ups credited, less what of them was refunded. */
  function TotalLoaded(sessions: seq<Session>): int {
    if |sessions| == 0 then 0
    else
      var s := sessions[|sessions| - 1];
      TotalLoaded(sessions[..|sessions| - 1]) + s.credited - s.refunded
  }

  lemma {:induction false} TotalLoadedUpdate(sessions: seq<Session>, k: nat, s: Session)
    requires k < |sessions|
    ensures TotalLoaded(sessions[k := s])
         == TotalLoaded(sessions) - sessions[k].credited + sessions[k].refunded + s.credited - s.refunded
  {
    var last := |sessions| - 1;
    if k == last {
      assert sessions[k := s][..last] == sessions[..last];
    } else {
      assert sessions[k := s][..last] == sessions[..last][k := s];
      TotalLoadedUpdate(sessions[..last], k, s);
    }
  }
}
