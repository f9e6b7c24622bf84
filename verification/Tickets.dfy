/** cmd/gateway/ticket.go: approval tickets, decided at most once by a conditional update. */
module Tickets {
  import opened Wrappers

  datatype Status = Pending | Approved | Denied | Expired | Cancelled

  datatype Row = Row(session: string, turn: string, tool: string, status: Status, decidedBy: Option<string>)

  type Table = map<string, Row>

  /** How a statement went: acknowledged, done but reported as an error, or not done. */
  datatype DbFate = Done | DoneUnheard | NotDone

  /** UPDATE ... WHERE id = $1 AND status = 'pending'. */
  function Decide(rows: Table, id: string, status: Status, decider: string): Table {
    if id in rows && rows[id].status == Pending
    then rows[id := rows[id].(status := status, decidedBy := Some(decider))]
    else rows
  }

  datatype Update = Update(id: string, status: Status, decider: string)

  /** The table after updates in the order in which they take effect. */
  function DecideAll(rows: Table, updates: seq<Update>): Table {
    if updates == [] then rows
    else
      var u := updates[|updates| - 1];
      Decide(DecideAll(rows, updates[..|updates| - 1]), u.id, u.status, u.decider)
  }

  /** A ticket leaves pending once: whatever updates follow, in whatever order, it keeps the status
      and the decider of the first update that names it, and stays pending if none does. */
  lemma {:induction false} FirstDecisionWins(rows: Table, updates: seq<Update>, id: string, first: nat)
    requires id in rows && rows[id].status == Pending
    requires forall u | u in updates :: u.status != Pending
    requires first <= |updates| && forall j | 0 <= j < first :: updates[j].id != id
    requires first < |updates| ==> updates[first].id == id
    ensures var after := DecideAll(rows, updates);
            && after.Keys == rows.Keys
            && after[id] == if first == |updates| then rows[id]
                            else rows[id].(status := updates[first].status, decidedBy := Some(updates[first].decider))
  {
    if updates != [] {
      var n := |updates| - 1;
      FirstDecisionWins(rows, updates[..n], id, if first > n then n else first);
      assert updates[n] in updates;
      if first < n {
        assert updates[first] in updates;
      }
    }
  }

  class TicketStore {
    var rows: Table

    constructor ()
      ensures rows == map[]
    {
      rows := map[];
    }

    /** The id is the one the database generates; an error return loses it. */
    method Insert(session: string, turn: string, tool: string, id: string, fate: DbFate)
        returns (ticket: Option<string>)
      modifies this
      ensures rows == if fate == NotDone then old(rows) else old(rows)[id := Row(session, turn, tool, Pending, None)]
      ensures ticket == if fate == Done then Some(id) else None
    {
      if fate != NotDone {
        rows := rows[id := Row(session, turn, tool, Pending, None)];
      }
      ticket := if fate == Done then Some(id) else None;
    }

    /** Succeeds even when no row was pending. */
    method UpdateStatus(id: string, status: Status, decidedBy: string, fate: DbFate) returns (ok: bool)
      modifies this
      ensures rows == if fate == NotDone then old(rows) else Decide(old(rows), id, status, decidedBy)
      ensures ok <==> fate == Done
    {
      if fate != NotDone {
        if id in rows && rows[id].status == Pending {
          rows := rows[id := rows[id].(status := status, decidedBy := Some(decidedBy))];
        }
      }
      ok := fate == Done;
    }

    /** What others do to the table. */
    method Change(change: Table -> Table)
      modifies this
      ensures rows == change(old(rows))
    {
      rows := change(rows);
    }
  }
}
