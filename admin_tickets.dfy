/** The administrator's ticket queue: tickets fetched with optional status
    and priority constraints, each with its message count, then searched
    by subject, id and the owner's username and full name. */
module AdminTickets {
  import opened Common

  datatype Owner = Owner(username: Option<string>, fullName: Option<string>)

  /** A ticket row as the store returns it; `messageCounts` is the joined
      list of message counts (at most one element). */
  datatype TicketRow = TicketRow(
    id: string,
    userId: string,
    subject: string,
    category: string,
    priority: string,
    status: string,
    createdAt: string,
    updatedAt: string,
    owner: Option<Owner>,
    messageCounts: seq<int>)

  datatype SupportTicket = SupportTicket(row: TicketRow, messages: int)

  const AllValues := "all"

  /** The rows the query returns: those equal to each constraint that is
      not "all". */
  function Query(rows: seq<TicketRow>, status: string, priority: string): (r: seq<TicketRow>)
    ensures IsSubseq(r, rows)
    ensures forall i :: 0 <= i < |r| ==>
      (status == AllValues || r[i].status == status) && (priority == AllValues || r[i].priority == priority)
    ensures forall i ::
      (0 <= i < |rows| && (status == AllValues || rows[i].status == status)
       && (priority == AllValues || rows[i].priority == priority))
      ==> rows[i] in r && multiset(r)[rows[i]] == multiset(rows)[rows[i]]
    ensures multiset(r) <= multiset(rows)
  {
    var keep := (t: TicketRow) => (status == AllValues || t.status == status) && (priority == AllValues || t.priority == priority);
    FilterIsSubseq(rows, keep);
    Filter(rows, keep)
  }

  /** `ticket_messages[0]?.count || 0`. */
  function MessageCount(counts: seq<int>): (n: int)
    ensures counts == [] ==> n == 0
    ensures counts != [] ==> n == counts[0]
  {
    if counts == [] then 0 else counts[0]
  }

  /** The rows with their message counts attached. */
  function Format(rows: seq<TicketRow>): (r: seq<SupportTicket>)
    ensures |r| == |rows|
    ensures forall i :: 0 <= i < |rows| ==> r[i].row == rows[i] && r[i].messages == MessageCount(rows[i].messageCounts)
  {
    seq(|rows|, i requires 0 <= i < |rows| => SupportTicket(rows[i], MessageCount(rows[i].messageCounts)))
  }

  /** The search: subject or id, or the owner's username or full name
      where present, contains the term ignoring case. */
  predicate Matches(t: SupportTicket, term: string)
  {
    MatchesTerm(t.row.subject, term) || MatchesTerm(t.row.id, term)
    || (t.row.owner.Some? && t.row.owner.value.username.Some? && MatchesTerm(t.row.owner.value.username.value, term))
    || (t.row.owner.Some? && t.row.owner.value.fullName.Some? && MatchesTerm(t.row.owner.value.fullName.value, term))
  }

  function Searched(tickets: seq<SupportTicket>, term: string): (r: seq<SupportTicket>)
    ensures IsSubseq(r, tickets)
    ensures forall i :: 0 <= i < |r| ==> Matches(r[i], term)
    ensures forall i :: 0 <= i < |tickets| && Matches(tickets[i], term) ==> tickets[i] in r && multiset(r)[tickets[i]] == multiset(tickets)[tickets[i]]
    ensures multiset(r) <= multiset(tickets)
  {
    var keep := (t: SupportTicket) => Matches(t, term);
    FilterIsSubseq(tickets, keep);
    Filter(tickets, keep)
  }

  /** An empty search lists every fetched ticket. */
  lemma EmptySearchListsAll(tickets: seq<SupportTicket>)
    ensures Searched(tickets, "") == tickets
  {
    var keep := (t: SupportTicket) => Matches(t, "");
    forall i | 0 <= i < |tickets|
      ensures keep(tickets[i])
    {
      EmptyTermMatches(tickets[i].row.subject);
    }
    FilterKeepsAll(tickets, keep);
  }

  /** The error text: the failure's message, or a fixed text when it has none. */
  function ErrorText(message: string): (r: string)
    ensures r != ""
    ensures message != "" ==> r == message
  {
    if message == "" then "Failed to load tickets." else message
  }

  /** The ticket queue page. */
  class AdminTicketsPage {
    var tickets: seq<SupportTicket>
    var loading: bool
    var error: Option<string>
    var statusFilter: string
    var priorityFilter: string

    constructor ()
      ensures tickets == [] && loading && error == None
      ensures statusFilter == AllValues && priorityFilter == AllValues
    {
      tickets, loading, error := [], true, None;
      statusFilter, priorityFilter := AllValues, AllValues;
    }

    /** Fetch for a viewer; `rows` is what the store returns, or None when
        the query fails with `failure` as its message. A failed fetch keeps
        the tickets loaded before; a viewer who is not a signed-in
        administrator fetches nothing. */
    method FetchTickets(signedIn: bool, isAdmin: bool, rows: Option<seq<TicketRow>>, failure: string)
      modifies this
      ensures !loading
      ensures !(signedIn && isAdmin) ==> tickets == old(tickets) && error == None
      ensures signedIn && isAdmin && rows.Some? ==>
        tickets == Format(Query(rows.value, statusFilter, priorityFilter)) && error == None
      ensures signedIn && isAdmin && rows.None? ==> tickets == old(tickets) && error == Some(ErrorText(failure))
      ensures statusFilter == old(statusFilter) && priorityFilter == old(priorityFilter)
    {
      loading := true;
      error := None;
      if !(signedIn && isAdmin) {
        loading := false;
        return;
      }
      if rows.Some? {
        tickets := Format(Query(rows.value, statusFilter, priorityFilter));
      } else {
        error := Some(ErrorText(failure));
      }
      loading := false;
    }

    method SetFilters(status: string, priority: string)
      modifies this
      ensures statusFilter == status && priorityFilter == priority
      ensures tickets == old(tickets) && loading == old(loading) && error == old(error)
    {
      statusFilter, priorityFilter := status, priority;
    }
  }
}
