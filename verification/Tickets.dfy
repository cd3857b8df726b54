/** The one-time tickets that tie an actor's WebSocket to the identity its bootstrap request proved
    (cmd/egress-broker/server.go: `issueTicket`, `redeemTicket`). Times are in milliseconds. */
module Tickets {
  import opened Wrappers
  import opened Identity

  datatype Ticket = Ticket(ref: ActorRef, expires: nat)

  const TICKET_LIFETIME: nat := 120_000

  type Table = map<string, Ticket>

  function Issue(tickets: Table, t: string, ref: ActorRef, now: nat): Table {
    tickets[t := Ticket(ref, now + TICKET_LIFETIME)]
  }

  /** What presenting `t` yields; the entry is gone afterwards in every case. */
  function Redeem(tickets: Table, t: string, now: nat): Option<ActorRef> {
    if t !in tickets || now > tickets[t].expires then None else Some(tickets[t].ref)
  }

  /** The table as the server holds it; `t` is the random value drawn for a new ticket. */
  class TicketTable {
    var tickets: Table

    constructor ()
      ensures tickets == map[]
    {
      tickets := map[];
    }

    method IssueTicket(t: string, ref: ActorRef, now: nat)
      modifies this
      ensures tickets == Issue(old(tickets), t, ref, now)
      ensures t in tickets && tickets[t].ref == ref && tickets[t].expires == now + 120_000
    {
      tickets := tickets[t := Ticket(ref, now + TICKET_LIFETIME)];
    }

    method RedeemTicket(t: string, now: nat) returns (r: Option<ActorRef>)
      modifies this
      ensures r == Redeem(old(tickets), t, now) && tickets == old(tickets) - {t}
    {
      if t !in tickets || now > tickets[t].expires {
        tickets := tickets - {t};
        return None;
      }
      r := Some(tickets[t].ref);
      tickets := tickets - {t};
    }
  }

  // ---- Whole runs

  datatype Grant = Grant(ticket: string, ref: ActorRef, at: nat)

  /** The table with its history: every ticket ever issued, those presented since, the successful
      presentations in order. */
  datatype TicketState = TicketState(
    table: Table,
    issued: Table,
    spent: set<string>,
    grants: seq<Grant>,
    now: nat)

  const NO_TICKETS := TicketState(map[], map[], {}, [], 0)

  datatype TicketLabel = TIssue(t: string, ref: ActorRef) | TPresent(t: string) | TTick(elapsed: nat)

  /** Random ticket values are never drawn twice; anything may be presented. */
  predicate TicketEnabled(s: TicketState, l: TicketLabel) {
    l.TIssue? ==> l.t !in s.issued
  }

  function TicketStep(s: TicketState, l: TicketLabel): TicketState {
    match l
    case TIssue(t, ref) =>
      s.(table := Issue(s.table, t, ref, s.now), issued := Issue(s.issued, t, ref, s.now))
    case TPresent(t) =>
      var r := Redeem(s.table, t, s.now);
      s.(table := s.table - {t},
         spent := if t in s.issued then s.spent + {t} else s.spent,
         grants := if r.Some? then s.grants + [Grant(t, r.value, s.now)] else s.grants)
    case TTick(d) => s.(now := s.now + d)
  }

  /** The table is what was issued and not yet presented; every grant was for an issued ticket, to
      the actor it was issued for, in time, and no ticket was granted twice. */
  ghost predicate TicketInv(s: TicketState) {
    && s.spent <= s.issued.Keys
    && s.table == s.issued - s.spent
    && (forall g :: g in s.grants ==>
          g.ticket in s.spent && s.issued[g.ticket].ref == g.ref && g.at <= s.issued[g.ticket].expires)
    && (forall i, j :: 0 <= i < j < |s.grants| ==> s.grants[i].ticket != s.grants[j].ticket)
  }

  lemma TicketStepKeepsInv(s: TicketState, l: TicketLabel)
    requires TicketInv(s) && TicketEnabled(s, l)
    ensures TicketInv(TicketStep(s, l))
  {
    var s' := TicketStep(s, l);
    match l
    case TIssue(t, ref) =>
      assert s'.table == s'.issued - s'.spent;
    case TPresent(t) =>
      assert s'.table == s'.issued - s'.spent;
      if t in s.table {
        assert forall g :: g in s.grants ==> g.ticket != t;
      }
    case TTick(_) =>
  }

  predicate IsTicketRun(s: TicketState, ls: seq<TicketLabel>)
    decreases |ls|
  {
    ls == [] || (TicketEnabled(s, ls[0]) && IsTicketRun(TicketStep(s, ls[0]), ls[1..]))
  }

  function AfterTickets(s: TicketState, ls: seq<TicketLabel>): TicketState
    requires IsTicketRun(s, ls)
    decreases |ls|
  {
    if ls == [] then s else AfterTickets(TicketStep(s, ls[0]), ls[1..])
  }

  lemma {:induction false} TicketRunKeepsInv(s: TicketState, ls: seq<TicketLabel>)
    requires TicketInv(s) && IsTicketRun(s, ls)
    ensures TicketInv(AfterTickets(s, ls))
    decreases |ls|
  {
    if ls != [] {
      TicketStepKeepsInv(s, ls[0]);
      TicketRunKeepsInv(TicketStep(s, ls[0]), ls[1..]);
    }
  }

  /** On every run: the table holds exactly the issued tickets never presented since; presenting
      succeeds exactly for those, up to and including their expiry, and yields the actor of issue;
      and no ticket ever succeeds twice. */
  lemma TicketsOverRuns(ls: seq<TicketLabel>, t: string)
    requires IsTicketRun(NO_TICKETS, ls)
    ensures var s := AfterTickets(NO_TICKETS, ls);
            && s.table == s.issued - s.spent
            && (Redeem(s.table, t, s.now).Some? <==> t in s.issued && t !in s.spent && s.now <= s.issued[t].expires)
            && (Redeem(s.table, t, s.now).Some? ==> Redeem(s.table, t, s.now).value == s.issued[t].ref)
            && (forall i, j :: 0 <= i < j < |s.grants| ==> s.grants[i].ticket != s.grants[j].ticket)
            && (forall i :: 0 <= i < |s.grants| && s.grants[i].ticket == t ==> Redeem(s.table, t, s.now).None?)
  {
    TicketRunKeepsInv(NO_TICKETS, ls);
    var s := AfterTickets(NO_TICKETS, ls);
    assert forall i :: 0 <= i < |s.grants| ==> s.grants[i] in s.grants;
  }

  // ---- Read off the run

  /** The time that passes over a sequence of steps. */
  function Elapsed(ls: seq<TicketLabel>): nat {
    if ls == [] then 0
    else Elapsed(ls[..|ls| - 1]) + (if ls[|ls| - 1].TTick? then ls[|ls| - 1].elapsed else 0)
  }

  /** The step at `i` issued `t` to `ref`, and nobody has presented it since. */
  predicate Unpresented(ls: seq<TicketLabel>, i: nat, t: string, ref: ActorRef) {
    i < |ls| && ls[i] == TIssue(t, ref) && forall j :: i < j < |ls| ==> ls[j] != TPresent(t)
  }

  lemma {:induction false} ElapsedOfParts(ls: seq<TicketLabel>, i: nat)
    requires i <= |ls|
    ensures Elapsed(ls) == Elapsed(ls[..i]) + Elapsed(ls[i..])
    decreases |ls|
  {
    if i == |ls| {
      assert ls[..i] == ls && ls[i..] == [];
    } else {
      var n := |ls| - 1;
      ElapsedOfParts(ls[..n], i);
      assert ls[..n][..i] == ls[..i];
      assert ls[i..][..n - i] == ls[..n][i..] && ls[i..][n - i] == ls[n];
    }
  }

  /** A run, seen from its last step. */
  lemma {:induction false} TicketLastStep(s: TicketState, ls: seq<TicketLabel>)
    requires IsTicketRun(s, ls) && ls != []
    ensures var n := |ls| - 1;
            && IsTicketRun(s, ls[..n]) && TicketEnabled(AfterTickets(s, ls[..n]), ls[n])
            && AfterTickets(s, ls) == TicketStep(AfterTickets(s, ls[..n]), ls[n])
    decreases |ls|
  {
    hide TicketEnabled, TicketStep;
    var n := |ls| - 1;
    if n > 0 {
      TicketLastStep(TicketStep(s, ls[0]), ls[1..]);
      assert ls[1..][..n - 1] == ls[..n][1..] && ls[1..][n - 1] == ls[n];
    } else {
      assert ls[..0] == [] && ls[1..] == [];
    }
  }

  lemma UnpresentedLast(ls: seq<TicketLabel>, i: nat, t: string, ref: ActorRef)
    requires ls != []
    ensures var n := |ls| - 1;
            Unpresented(ls, i, t, ref) <==>
            || (i < n && Unpresented(ls[..n], i, t, ref) && ls[n] != TPresent(t))
            || (i == n && ls[n] == TIssue(t, ref))
  {
  }

  ghost predicate HasUnpresented(ls: seq<TicketLabel>, t: string) {
    exists i: nat, ref :: Unpresented(ls, i, t, ref)
  }

  /** The table holds the unpresented tickets, each with its actor and two minutes from its issue. */
  ghost predicate TableIs(table: Table, ls: seq<TicketLabel>) {
    && (forall t :: t in table ==> HasUnpresented(ls, t))
    && (forall i: nat, t, ref :: Unpresented(ls, i, t, ref) ==>
          t in table && table[t] == Ticket(ref, Elapsed(ls[..i]) + 120_000))
  }

  lemma TableAfterStep(s: TicketState, ls: seq<TicketLabel>)
    requires ls != [] && TableIs(s.table, ls[..|ls| - 1]) && s.now == Elapsed(ls[..|ls| - 1])
    requires TicketEnabled(s, ls[|ls| - 1]) && TicketInv(s)
    ensures TableIs(TicketStep(s, ls[|ls| - 1]).table, ls)
  {
    var n := |ls| - 1;
    var p, l, table := ls[..n], ls[n], TicketStep(s, ls[n]).table;
    hide Elapsed;
    forall t | t in table ensures HasUnpresented(ls, t) {
      if l.TIssue? && l.t == t {
        UnpresentedLast(ls, n, t, l.ref);
      } else {
        assert t in s.table;
        var i: nat, ref :| Unpresented(p, i, t, ref);
        UnpresentedLast(ls, i, t, ref);
      }
    }
    forall i: nat, t, ref | Unpresented(ls, i, t, ref)
      ensures t in table && table[t] == Ticket(ref, Elapsed(ls[..i]) + 120_000)
    {
      UnpresentedLast(ls, i, t, ref);
      if i < n {
        assert p[..i] == ls[..i];
        assert t in s.table;
      }
    }
  }

  lemma {:induction false} TableFromLabels(ls: seq<TicketLabel>)
    requires IsTicketRun(NO_TICKETS, ls)
    ensures AfterTickets(NO_TICKETS, ls).now == Elapsed(ls) && TableIs(AfterTickets(NO_TICKETS, ls).table, ls)
    decreases |ls|
  {
    if ls != [] {
      var n := |ls| - 1;
      TicketLastStep(NO_TICKETS, ls);
      TableFromLabels(ls[..n]);
      TicketRunKeepsInv(NO_TICKETS, ls[..n]);
      hide TableIs, TicketInv, IsTicketRun, AfterTickets;
      TableAfterStep(AfterTickets(NO_TICKETS, ls[..n]), ls);
    }
  }

  /** Presenting a ticket after any run succeeds, and yields an actor, if and only if some step issued
      it to that actor, nobody has presented it since, and no more than two minutes have passed. */
  lemma PresentSucceedsIff(ls: seq<TicketLabel>, t: string, ref: ActorRef)
    requires IsTicketRun(NO_TICKETS, ls)
    ensures var s := AfterTickets(NO_TICKETS, ls);
            Redeem(s.table, t, s.now) == Some(ref) <==>
            exists i: nat :: Unpresented(ls, i, t, ref) && Elapsed(ls[i + 1..]) <= 120_000
  {
    var s := AfterTickets(NO_TICKETS, ls);
    TableFromLabels(ls);
    hide IsTicketRun, AfterTickets;
    forall i: nat | Unpresented(ls, i, t, ref)
      ensures t in s.table && s.table[t].ref == ref
      ensures s.table[t].expires + Elapsed(ls[i + 1..]) == s.now + 120_000
    {
      ElapsedOfParts(ls, i + 1);
      assert ls[..i + 1][..i] == ls[..i];
    }
    assert t in s.table ==> HasUnpresented(ls, t);
    assert forall i: nat, r :: Unpresented(ls, i, t, r) ==> s.table[t].ref == r;
    hide Elapsed, TableIs;
    if Redeem(s.table, t, s.now) == Some(ref) {
      var i: nat, r :| Unpresented(ls, i, t, r);
      assert r == ref;
    }
  }
}
