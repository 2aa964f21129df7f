/**
 * The `bookings` table that both backend files query through a node-postgres pool. Each query
 * takes an `Effect` input saying whether the awaited call resolves or throws; the SQL engine,
 * the pool and the connection are not modelled.
 */
module BookingsDb {
  import opened Wrappers
  import JsText

  /** One row of `bookings(email, message, created_at)`; `createdAt` is a timestamp in milliseconds. */
  datatype BookingRow = BookingRow(email: string, message: string, createdAt: int)

  /** Whether an awaited call into the database or the mail transport resolves or throws. */
  datatype Effect = Resolves | Throws(message: string)

  /** The distinct emails in a list of rows. */
  function Emails(rows: seq<BookingRow>): set<string> {
    set i | 0 <= i < |rows| :: rows[i].email
  }

  /** Rows that all carry the same email count as at most one user. */
  lemma EmailsOfOneSender(rows: seq<BookingRow>, email: string)
    requires forall i :: 0 <= i < |rows| ==> rows[i].email == email
    ensures |Emails(rows)| <= 1
  {
    var e := Emails(rows);
    assert e <= {email};
    if e != {} {
      assert e == {email};
    }
  }

  class Database {
    var bookings: seq<BookingRow>

    constructor (rows: seq<BookingRow>)
      ensures bookings == rows
    {
      bookings := rows;
    }

    /**
     * `SELECT COUNT(*) ... FROM bookings`: one result row whose single column holds the count as
     * decimal text (node-postgres returns a bigint as a string).
     */
    method CountBookings(effect: Effect) returns (r: Result<seq<string>>)
      ensures effect.Resolves? ==> r == Success([JsText.Decimal(|bookings|)])
      ensures effect.Throws? ==> r == Failure(effect.message)
    {
      if effect.Throws? {
        return Failure(effect.message);
      }
      r := Success([JsText.Decimal(|bookings|)]);
    }

    /** `SELECT COUNT(DISTINCT email) ... FROM bookings`, returned in the same form. */
    method CountDistinctEmails(effect: Effect) returns (r: Result<seq<string>>)
      ensures effect.Resolves? ==> r == Success([JsText.Decimal(|Emails(bookings)|)])
      ensures effect.Throws? ==> r == Failure(effect.message)
    {
      if effect.Throws? {
        return Failure(effect.message);
      }
      r := Success([JsText.Decimal(|Emails(bookings)|)]);
    }

    /** `INSERT INTO bookings (email, message, created_at) VALUES (...)`: one row appended, or none if it throws. */
    method InsertBooking(row: BookingRow, effect: Effect) returns (r: Result<()>)
      modifies this
      ensures r == if effect.Resolves? then Success(()) else Failure(effect.message)
      ensures bookings == if effect.Resolves? then old(bookings) + [row] else old(bookings)
    {
      if effect.Throws? {
        return Failure(effect.message);
      }
      bookings := bookings + [row];
      r := Success(());
    }
  }
}
