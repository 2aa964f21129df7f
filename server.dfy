/**
 * The two data endpoints of smart-booking-backend/server.js: `GET /api/booking-stats` (the same
 * handler as routes/bookingStats.js) and `POST /api/analyze-message`, which validates the
 * message, mails it to the operator and then records it as a booking row. The mail transport
 * and the database are the inputs of type `Effect`: each awaited call resolves or throws.
 */
module Server {
  import opened Wrappers
  import opened BookingsDb
  import BookingStats

  /** The email written into every row this endpoint inserts. */
  const RowEmail := "user@example.com"
  const MailSubject := "New Booking Request"
  const MissingMessage := "Message is required"
  const ProcessFailure := "Failed to process booking request"
  const ProcessedMessage := "Booking request received and processed successfully"

  /** A notification mail: its subject, the booking message and the ISO timestamp in its HTML body. */
  datatype Mail = Mail(subject: string, message: string, timestamp: string)

  /** The nodemailer transport; `sent` lists the mails it accepted, in order. */
  class Mailer {
    var sent: seq<Mail>

    constructor ()
      ensures sent == []
    {
      sent := [];
    }

    /** `transporter.sendMail(...)`: the mail is accepted, or the call throws and nothing is sent. */
    method SendMail(mail: Mail, effect: Effect) returns (r: Result<()>)
      modifies this
      ensures r == if effect.Resolves? then Success(()) else Failure(effect.message)
      ensures sent == if effect.Resolves? then old(sent) + [mail] else old(sent)
    {
      if effect.Throws? {
        return Failure(effect.message);
      }
      sent := sent + [mail];
      r := Success(());
    }
  }

  /** The JSON bodies: `{success: true, message}`, `{error}` and `{error, details}`. */
  datatype IntakeBody =
    | Processed(message: string)
    | Rejected(error: string)
    | Failed(error: string, details: string)

  datatype IntakeReply = IntakeReply(status: int, body: IntakeBody)

  /** The reply of one request, and whether it sent the mail and inserted the row. */
  datatype IntakeOutcome = IntakeOutcome(reply: IntakeReply, mailed: bool, inserted: bool)

  /** `!message` for a string body field: absent, null and "" are rejected. */
  predicate IsMissing(message: Option<string>) {
    message.None? || message.value == ""
  }

  /**
   * The decisions of `POST /api/analyze-message` for a request carrying `message`, given how the
   * mail send and the insert turn out. The mail goes first, so a failed send leaves no row; a
   * failed insert happens after the mail has gone.
   */
  function Intake(message: Option<string>, mail: Effect, insert: Effect): (o: IntakeOutcome)
    ensures o.reply.status in {200, 400, 500}
    ensures o.inserted ==> o.mailed
    ensures o.reply.status == 400 <==> IsMissing(message)
    ensures o.reply.status == 400 ==> o.reply.body == Rejected(MissingMessage) && !o.mailed
    ensures o.reply.status == 200 <==> !IsMissing(message) && mail.Resolves? && insert.Resolves?
    ensures o.reply.status == 200 <==> o.inserted
    ensures o.reply.status == 200 ==> o.reply.body == Processed(ProcessedMessage)
    ensures !IsMissing(message) && mail.Throws? ==>
      o.reply == IntakeReply(500, Failed(ProcessFailure, mail.message)) && !o.mailed
    ensures !IsMissing(message) && mail.Resolves? ==> o.mailed
    ensures !IsMissing(message) && mail.Resolves? && insert.Throws? ==>
      o.reply == IntakeReply(500, Failed(ProcessFailure, insert.message))
  {
    if IsMissing(message) then
      IntakeOutcome(IntakeReply(400, Rejected(MissingMessage)), false, false)
    else if mail.Throws? then
      IntakeOutcome(IntakeReply(500, Failed(ProcessFailure, mail.message)), false, false)
    else if insert.Throws? then
      IntakeOutcome(IntakeReply(500, Failed(ProcessFailure, insert.message)), true, false)
    else
      IntakeOutcome(IntakeReply(200, Processed(ProcessedMessage)), true, true)
  }

  /**
   * The handler: validate, send the mail, insert the row, reply. `mailTime` and `insertTime` are
   * the two `new Date()` readings (the mail's ISO timestamp and the row's `created_at`).
   */
  method AnalyzeMessage(db: Database, mailer: Mailer, message: Option<string>, mail: Effect, insert: Effect,
                        mailTime: string, insertTime: int) returns (reply: IntakeReply)
    modifies db, mailer
    ensures reply == Intake(message, mail, insert).reply
    ensures db.bookings == old(db.bookings) +
      if Intake(message, mail, insert).inserted then [BookingRow(RowEmail, message.value, insertTime)] else []
    ensures mailer.sent == old(mailer.sent) +
      if Intake(message, mail, insert).mailed then [Mail(MailSubject, message.value, mailTime)] else []
  {
    if message.None? || message.value == "" {
      return IntakeReply(400, Rejected(MissingMessage));
    }
    var sendResult := mailer.SendMail(Mail(MailSubject, message.value, mailTime), mail);
    if sendResult.Failure? {
      return IntakeReply(500, Failed(ProcessFailure, sendResult.error));
    }
    var insertResult := db.InsertBooking(BookingRow(RowEmail, message.value, insertTime), insert);
    if insertResult.Failure? {
      return IntakeReply(500, Failed(ProcessFailure, insertResult.error));
    }
    reply := IntakeReply(200, Processed(ProcessedMessage));
  }

  /** server.js's copy of the stats handler, which behaves as the router's. */
  method GetBookingStats(db: Database, q1: Effect, q2: Effect, q3: Effect, now: string) returns (reply: BookingStats.StatsReply)
    ensures reply == BookingStats.StatsResponse(db.bookings, q1, q2, q3, now)
  {
    reply := BookingStats.GetBookingStats(db, q1, q2, q3, now);
  }

  /**
   * An accepted booking is visible in the stats: after a successful request, a stats request
   * whose queries succeed reports one more booking, still with a success rate of 100.
   */
  lemma AcceptedBookingIsCounted(bookings: seq<BookingRow>, message: string, insertTime: int, now: string)
    requires message != ""
    ensures Intake(Some(message), Resolves, Resolves).inserted
    ensures var after := bookings + [BookingRow(RowEmail, message, insertTime)];
      BookingStats.StatsResponse(after, Resolves, Resolves, Resolves, now).body.totalBookings == Some(|bookings| + 1) &&
      BookingStats.StatsResponse(after, Resolves, Resolves, Resolves, now).body.successRate == Some(100)
  {
  }

  /**
   * Every row this endpoint inserts carries the same email, so a table filled only through it
   * reports at most one user, whatever the number of bookings.
   */
  lemma IntakeRowsAreOneUser(bookings: seq<BookingRow>, now: string)
    requires forall i :: 0 <= i < |bookings| ==> bookings[i].email == RowEmail
    ensures var users := BookingStats.StatsResponse(bookings, Resolves, Resolves, Resolves, now).body.totalUsers;
      users.Some? && users.value <= 1
  {
    EmailsOfOneSender(bookings, RowEmail);
  }
}
