/** The customer's support ticket list: a search over subject and id, a
    status filter and a priority filter ("all" switches a filter off), and
    the message shown when nothing is listed. */
module TicketList {
  import opened Common

  datatype Ticket = Ticket(
    id: string,
    subject: string,
    category: string,
    priority: string,
    status: string,
    created: string,
    updated: string,
    messages: nat)

  const AllValues := "all"

  function SampleTickets(): (r: seq<Ticket>)
    ensures |r| == 4
  {
    [Ticket("TKT-001", "Server not responding", "Technical Support", "high", "open",
            "2024-01-15T10:30:00Z", "2024-01-15T14:20:00Z", 3),
     Ticket("TKT-002", "Billing question about upgrade", "Billing & Account", "medium", "pending",
            "2024-01-14T16:45:00Z", "2024-01-15T09:15:00Z", 2),
     Ticket("TKT-003", "Request for additional IP address", "Feature Request", "low", "resolved",
            "2024-01-12T11:20:00Z", "2024-01-13T15:30:00Z", 5),
     Ticket("TKT-004", "High CPU usage investigation", "Server Performance", "medium", "in-progress",
            "2024-01-10T08:15:00Z", "2024-01-15T12:45:00Z", 7)]
  }

  /** A ticket passes the search and both filters. */
  predicate Shown(t: Ticket, term: string, status: string, priority: string)
  {
    (MatchesTerm(t.subject, term) || MatchesTerm(t.id, term))
    && (status == AllValues || t.status == status)
    && (priority == AllValues || t.priority == priority)
  }

  /** The listed tickets: exactly those passing, in their order. */
  function Listed(tickets: seq<Ticket>, term: string, status: string, priority: string): (r: seq<Ticket>)
    ensures IsSubseq(r, tickets)
    ensures forall i :: 0 <= i < |r| ==> Shown(r[i], term, status, priority)
    ensures forall i :: 0 <= i < |tickets| && Shown(tickets[i], term, status, priority) ==> tickets[i] in r && multiset(r)[tickets[i]] == multiset(tickets)[tickets[i]]
    ensures multiset(r) <= multiset(tickets)
  {
    var keep := (t: Ticket) => Shown(t, term, status, priority);
    FilterIsSubseq(tickets, keep);
    Filter(tickets, keep)
  }

  /** With no search and both filters off every ticket is listed. */
  lemma NoFilterListsAll(tickets: seq<Ticket>)
    ensures Listed(tickets, "", AllValues, AllValues) == tickets
  {
    var keep := (t: Ticket) => Shown(t, "", AllValues, AllValues);
    forall i | 0 <= i < |tickets|
      ensures keep(tickets[i])
    {
      EmptyTermMatches(tickets[i].subject);
    }
    FilterKeepsAll(tickets, keep);
  }

  /** Choosing a status never lists a ticket the same search listed with
      the status filter off. */
  lemma ChoosingStatusNarrows(tickets: seq<Ticket>, term: string, status: string, priority: string)
    ensures IsSubseq(Listed(tickets, term, status, priority), Listed(tickets, term, AllValues, priority))
  {
    FilterMonotone(tickets, (t: Ticket) => Shown(t, term, status, priority),
                   (t: Ticket) => Shown(t, term, AllValues, priority));
  }

  /** The text under "No tickets found", when the list is empty. */
  function EmptyMessage(term: string, status: string, priority: string): string
  {
    if term != "" || status != AllValues || priority != AllValues
    then "Try adjusting your search or filters"
    else "You haven't created any support tickets yet"
  }

  /** "You haven't created any support tickets yet" is said of an empty
      list only when there are indeed no tickets. */
  lemma NoTicketsMessageIsTrue(tickets: seq<Ticket>, term: string, status: string, priority: string)
    requires Listed(tickets, term, status, priority) == []
    requires EmptyMessage(term, status, priority) == "You haven't created any support tickets yet"
    ensures tickets == []
  {
    NoFilterListsAll(tickets);
  }
}
