/**
 * The two services the handler talks to: the subscriber table (kept as a map
 * that the store calls update in place) and the mail service (kept as a ghost
 * outbox of delivered messages). Every call takes a `fail` flag that stands
 * for the service answering with an error.
 */
module Services {
  import opened Wrappers
  import opened Config
  import opened Store
  import opened Mail

  /** What a handler can return as its error value; service error codes are collapsed per call. */
  datatype Error =
    | AddressInvalid           // the address parser rejected the query's email
    | LookupFailed             // the item lookup failed
    | UpdateFailed             // the update failed
    | ConditionalCheckFailed   // the delete's email-and-id condition did not hold
    | DeleteFailed             // the delete failed
    | SendFailed               // the mail service refused the message

  class Services {
    var table: Table
    ghost var outbox: seq<Message>

    ghost predicate Valid()
      reads this
    {
      WellKeyed(table)
    }

    constructor (initial: Table)
      requires WellKeyed(initial)
      ensures Valid()
      ensures table == initial && outbox == []
    {
      table := initial;
      outbox := [];
    }

    /**
     * Fetch the item stored under `email` and report whether its stored email
     * and id equal the inputs. A failed lookup finds no item and reports the
     * failure; an absent item or a wrong id is no match and no error.
     */
    method EmailExistsWithId(email: string, id: string, fail: bool) returns (found: bool, err: Option<Error>)
      ensures found <==> !fail && Matches(table, email, id)
      ensures err == if fail then Some(LookupFailed) else None
    {
      var item: Option<Record> := if fail || email !in table then None else Some(table[email]);
      err := if fail then Some(LookupFailed) else None;
      if item.None? {
        return false, err;
      }
      if IsMatch(item.value, email, id) {
        return true, None;
      }
      return false, err;
    }

    /** Set id, timestamp and confirm on the item keyed by `email`, creating it if absent. */
    method UpdateItem(email: string, id: string, timestamp: string, confirm: bool, fail: bool) returns (err: Option<Error>)
      requires Valid()
      modifies this`table
      ensures Valid()
      ensures err == if fail then Some(UpdateFailed) else None
      ensures table == if fail then old(table) else Upsert(old(table), email, id, timestamp, confirm)
    {
      if fail {
        return Some(UpdateFailed);
      }
      UpsertWellKeyed(table, email, id, timestamp, confirm);
      table := Upsert(table, email, id, timestamp, confirm);
      return None;
    }

    /**
     * Delete the item keyed by `email` on condition that its stored email and id
     * still equal the inputs; a failed condition is an error and deletes nothing.
     */
    method DeleteEmail(email: string, id: string, fail: bool) returns (err: Option<Error>)
      requires Valid()
      modifies this`table
      ensures Valid()
      ensures err == if fail then Some(DeleteFailed)
                     else if Matches(old(table), email, id) then None
                     else Some(ConditionalCheckFailed)
      ensures table == if err.None? then old(table) - {email} else old(table)
    {
      if fail {
        return Some(DeleteFailed);
      }
      if !Matches(table, email, id) {
        return Some(ConditionalCheckFailed);
      }
      table := table - {email};
      return None;
    }

    /** Send the verification email for `email` and `id`; only a delivered message reaches the outbox. */
    method SendEmail(c: Config, email: string, id: string, fail: bool) returns (err: Option<Error>)
      modifies this`outbox
      ensures err == if fail then Some(SendFailed) else None
      ensures outbox == if fail then old(outbox) else old(outbox) + [VerificationMessage(c, email, id)]
    {
      var msg := VerificationMessage(c, email, id);
      if fail {
        return Some(SendFailed);
      }
      outbox := outbox + [msg];
      return None;
    }
  }
}
