/** `delete_message` (rentalhouse/rentalapp/views.py): a message can be
    deleted by its sender or its receiver, and by nobody else. */
module Messaging {
  import opened Common
  import opened Entities

  /** `delete_message`: removes message `id` when the user sent or received
      it; a missing message is not found and anyone else is refused, with
      nothing changed. Every other message stays as it was. */
  function DeleteMessage(db: Db, user: User, id: MessageId): (r: Reply)
    ensures Valid(db) ==> Valid(r.db)
    ensures r.outcome.Success? <==>
      id in db.messages && (db.messages[id].sender == user.id || db.messages[id].receiver == user.id)
    ensures r.outcome == Denied <==>
      id in db.messages && db.messages[id].sender != user.id && db.messages[id].receiver != user.id
    ensures !r.outcome.Success? ==> r.db == db
    ensures r.outcome.Success? ==>
      && r.db == db.(messages := r.db.messages)
      && r.db.messages.Keys == db.messages.Keys - {id}
      && (forall k | k in r.db.messages :: r.db.messages[k] == db.messages[k])
  {
    if id !in db.messages then Reply(db, NotFound)
    else
      var m := db.messages[id];
      if m.sender != user.id && m.receiver != user.id then Reply(db, Denied)
      else Reply(db.(messages := db.messages - {id}), Success)
  }

  /** A deleted message is gone: deleting it again finds nothing. */
  lemma DeleteTwiceNotFound(db: Db, user: User, id: MessageId)
    requires DeleteMessage(db, user, id).outcome.Success?
    ensures var once := DeleteMessage(db, user, id).db;
      DeleteMessage(once, user, id) == Reply(once, NotFound)
  {
  }
}
