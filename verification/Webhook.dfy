/** cmd/gateway/slack_webhook.go: what an authentic button click does. */
module Webhook {
  import opened Wrappers
  import opened Tickets

  /** The status an action stands for; other actions are refused. */
  function StatusOf(action: string): Option<Status> {
    if action == "approve" then Some(Approved)
    else if action == "deny" then Some(Denied)
    else None
  }

  /** The payload published for a status. */
  function Payload(status: Status): string {
    if status == Approved then "approved" else "denied"
  }

  /** The two actions, their statuses, and what is published for them. */
  lemma ActionsAre(action: string)
    ensures StatusOf(action) == Some(Approved) <==> action == "approve"
    ensures StatusOf(action) == Some(Denied) <==> action == "deny"
    ensures StatusOf(action).Some? ==> StatusOf(action).value in {Approved, Denied}
    ensures Payload(Approved) == "approved" && Payload(Denied) == "denied"
  {
  }

  datatype Publication = Publication(channel: string, payload: string)

  class LarkWebhookHandler {
    const tickets: TicketStore
    var published: seq<Publication>

    constructor (tickets: TicketStore)
      ensures this.tickets == tickets && published == []
    {
      this.tickets, this.published := tickets, [];
    }

    /** A click without a ticket or with an unknown action changes nothing. An update that is not
        acknowledged publishes nothing. Otherwise the status is published on the ticket's channel,
        also when the ticket had been decided before and the update changed no row. */
    method ServeHTTP(ticket: string, action: string, user: string, fate: DbFate, publishOk: bool) returns (code: int)
      modifies this, tickets
      ensures code == 400 <==> ticket == "" || StatusOf(action) == None
      ensures code == 400 ==> tickets.rows == old(tickets.rows) && published == old(published)
      ensures code != 400 ==>
                && code == (if fate == Done then 200 else 500)
                && tickets.rows == (if fate == NotDone then old(tickets.rows)
                                    else Decide(old(tickets.rows), ticket, StatusOf(action).value, user))
                && published == old(published) +
                     if fate == Done && publishOk
                     then [Publication("approvals:" + ticket, Payload(StatusOf(action).value))] else []
    {
      if ticket == "" {
        return 400;
      }
      var status;
      if action == "approve" {
        status := Approved;
      } else if action == "deny" {
        status := Denied;
      } else {
        return 400;
      }
      var ok := tickets.UpdateStatus(ticket, status, user, fate);
      if !ok {
        return 500;
      }
      if publishOk {
        published := published + [Publication("approvals:" + ticket, Payload(status))];
      }
      return 200;
    }
  }
}
