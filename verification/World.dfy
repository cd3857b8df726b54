/** All actors together: the ticket table, the registry and the sessions it points at
    (cmd/egress-broker/server.go, cmd/egress-broker/registry.go). Every session steps as in
    SessionMachine; this layer decides which session a request or a socket reaches. */
module World {
  import opened SocketMode
  import opened Identity
  import opened SessionCore
  import opened SessionMachine
  import opened Tickets
  import opened LogRefinement
  import opened Placement
  import opened Delivery
  import opened Content
  import opened SessionInvariant
  import DeliveryTheorems
  import AckTheorems
  import LifecycleTheorems

  /** A session object: the actor it was created for, and its state. */
  datatype Entry = Entry(ref: ActorRef, state: State)

  /** A WebSocket whose ticket was accepted: the actor the ticket named, and the ticket. */
  datatype Admission = Admission(ref: ActorRef, ticket: string)

  datatype Broker = Broker(
    tickets: TicketState,
    registry: map<ActorRef, nat>,
    sessions: map<nat, Entry>,
    nextSession: nat,
    admitted: map<Conn, Admission>)

  const NEW_BROKER := Broker(NO_TICKETS, map[], map[], 0, map[])

  predicate IsGolden(ref: ActorRef) {
    ref.atespace == GOLDEN_ATESPACE
  }

  datatype BrokerLabel =
    | BEnsureStarted(ref: ActorRef, token: string)
    | BIssue(ref: ActorRef, ticket: string)
    | BPresent(ticket: string, conn: Conn)
    | BAttach(conn: Conn)
    | BSession(sid: nat, step: Label)
    | BTick(elapsed: nat)

  /** GetOrCreate. */
  function GetOrCreate(b: Broker, ref: ActorRef): Broker {
    if ref in b.registry then b
    else b.(registry := b.registry[ref := b.nextSession],
            sessions := b.sessions[b.nextSession := Entry(ref, INITIAL)],
            nextSession := b.nextSession + 1)
  }

  predicate Consistent(b: Broker) {
    && (forall ref :: ref in b.registry ==> b.registry[ref] in b.sessions && b.sessions[b.registry[ref]].ref == ref)
    && (forall sid :: sid in b.sessions ==>
          sid < b.nextSession && b.sessions[sid].ref in b.registry && b.registry[b.sessions[sid].ref] == sid)
  }

  /** The session for `ref`, once it exists. */
  function SessionFor(b: Broker, ref: ActorRef): State {
    if ref in b.registry && b.registry[ref] in b.sessions then b.sessions[b.registry[ref]].state else INITIAL
  }

  function Update(b: Broker, sid: nat, s: State): map<nat, Entry>
    requires sid in b.sessions
  {
    b.sessions[sid := b.sessions[sid].(state := s)]
  }

  /** A step inside one session, other than those this layer drives. */
  predicate OwnStep(l: Label) {
    !l.LEnsureStarted? && !l.LAttach?
  }

  /** handleConnectionsOpen starts a reader for every actor but a golden one, before it issues the
      ticket; a socket is attached only with an accepted ticket; identities are arbitrary. */
  predicate BrokerEnabled(cfg: Config, b: Broker, l: BrokerLabel) {
    match l
    case BEnsureStarted(ref, _) => !IsGolden(ref)
    case BIssue(ref, t) =>
      && TicketEnabled(b.tickets, TIssue(t, ref))
      && (IsGolden(ref) || SessionFor(b, ref).core.reader.started || SessionFor(b, ref).core.reader.closed)
    case BPresent(_, c) => c !in b.admitted
    case BAttach(c) => c in b.admitted && c !in SessionFor(b, b.admitted[c].ref).conns
    case BSession(sid, l) => sid in b.sessions && OwnStep(l) && Enabled(cfg, b.sessions[sid].state, l)
    case BTick(_) => true
  }

  /** GetOrCreate, then a step of the session it returns. */
  function InSession(cfg: Config, b: Broker, ref: ActorRef, l: Label): Broker
    requires l.LEnsureStarted? || (l.LAttach? && l.conn !in SessionFor(b, ref).conns)
  {
    var b1 := GetOrCreate(b, ref);
    var sid := b1.registry[ref];
    if sid !in b1.sessions then b1
    else b1.(sessions := Update(b1, sid, Apply(cfg, b1.sessions[sid].state, l)))
  }

  function BrokerStep(cfg: Config, b: Broker, l: BrokerLabel): Broker
    requires BrokerEnabled(cfg, b, l)
  {
    match l
    case BEnsureStarted(ref, token) => InSession(cfg, b, ref, LEnsureStarted(token))
    case BIssue(ref, t) => b.(tickets := TicketStep(b.tickets, TIssue(t, ref)))
    case BPresent(t, c) =>
      var r := Redeem(b.tickets.table, t, b.tickets.now);
      b.(tickets := TicketStep(b.tickets, TPresent(t)),
         admitted := if r.Some? then b.admitted[c := Admission(r.value, t)] else b.admitted)
    case BAttach(c) => InSession(cfg, b, b.admitted[c].ref, LAttach(c))
    case BSession(sid, l) => b.(sessions := Update(b, sid, Apply(cfg, b.sessions[sid].state, l)))
    case BTick(d) => b.(tickets := TicketStep(b.tickets, TTick(d)))
  }

  // ---- Invariants

  ghost predicate Granted(tickets: TicketState, t: string) {
    exists i :: 0 <= i < |tickets.grants| && tickets.grants[i].ticket == t
  }

  /** Every admission rests on its own ticket, issued to the actor it names and accepted once. */
  ghost predicate AdmissionsOk(tickets: TicketState, admitted: map<Conn, Admission>) {
    && (forall c :: c in admitted ==>
          && admitted[c].ticket in tickets.issued && tickets.issued[admitted[c].ticket].ref == admitted[c].ref
          && Granted(tickets, admitted[c].ticket))
    && (forall c, d :: c in admitted && d in admitted && admitted[c].ticket == admitted[d].ticket ==> c == d)
  }

  /** Sockets sit in the session of the actor they were admitted for. */
  ghost predicate Routed(sessions: map<nat, Entry>, admitted: map<Conn, Admission>) {
    forall sid, c :: sid in sessions && c in sessions[sid].state.conns ==>
      c in admitted && admitted[c].ref == sessions[sid].ref
  }

  /** No reader, hence no event, ever, for a golden actor. */
  ghost predicate GoldenInert(sessions: map<nat, Entry>) {
    forall sid :: sid in sessions && IsGolden(sessions[sid].ref) ==>
      !sessions[sid].state.core.reader.started && sessions[sid].state.log.received == []
  }

  ghost predicate SessionsReachable(cfg: Config, sessions: map<nat, Entry>) {
    forall sid :: sid in sessions ==> Reachable(cfg, sessions[sid].state)
  }

  ghost predicate BrokerInv(cfg: Config, b: Broker) {
    && TicketInv(b.tickets) && AdmissionsOk(b.tickets, b.admitted)
    && Consistent(b) && Routed(b.sessions, b.admitted)
    && GoldenInert(b.sessions) && SessionsReachable(cfg, b.sessions)
  }

  /** What one session must satisfy, whichever it is. */
  ghost predicate EntryOk(cfg: Config, e: Entry, admitted: map<Conn, Admission>) {
    && Reachable(cfg, e.state)
    && (IsGolden(e.ref) ==> !e.state.core.reader.started && e.state.log.received == [])
    && (forall c :: c in e.state.conns ==> c in admitted && admitted[c].ref == e.ref)
  }

  lemma SetEntryKeepsInv(cfg: Config, b: Broker, sid: nat, e: Entry)
    requires Routed(b.sessions, b.admitted) && GoldenInert(b.sessions) && SessionsReachable(cfg, b.sessions)
    requires EntryOk(cfg, e, b.admitted)
    ensures var sessions' := b.sessions[sid := e];
            Routed(sessions', b.admitted) && GoldenInert(sessions') && SessionsReachable(cfg, sessions')
  {
    hide Reachable, IsGolden;
  }

  lemma CreateIsConsistent(b: Broker, ref: ActorRef)
    requires Consistent(b)
    ensures var b1 := GetOrCreate(b, ref);
            Consistent(b1) && ref in b1.registry && b1.registry[ref] in b1.sessions
            && b1.sessions[b1.registry[ref]] == Entry(ref, SessionFor(b, ref))
  {
  }

  /** The sessions on file, as values. */
  function OnFile(b: Broker): map<ActorRef, Core> {
    map ref | ref in b.registry :: SessionFor(b, ref).core
  }

  /** GetOrCreate here does to the file what the registry object's method does. */
  lemma GetOrCreateAgrees(b: Broker, ref: ActorRef)
    requires Consistent(b)
    ensures OnFile(GetOrCreate(b, ref)) == WithSession(OnFile(b), ref)
    ensures OnFile(GetOrCreate(b, ref))[ref] == SessionFor(b, ref).core
  {
    hide GetOrCreate, Consistent, SessionFor;
    forall r: ActorRef ensures SessionFor(GetOrCreate(b, ref), r).core == SessionFor(b, r).core {
      SessionsStay(b, ref, r);
    }
    FiledAfterCreate(b, ref);
  }

  lemma FiledAfterCreate(b: Broker, ref: ActorRef)
    ensures GetOrCreate(b, ref).registry.Keys == b.registry.Keys + {ref}
    ensures ref !in b.registry ==> SessionFor(b, ref).core == NEW_SESSION
  {
  }

  lemma SessionsStay(b: Broker, ref: ActorRef, r: ActorRef)
    requires Consistent(b)
    ensures SessionFor(GetOrCreate(b, ref), r) == SessionFor(b, r)
  {
    if r in b.registry {
      assert b.registry[r] in b.sessions;
      assert b.registry[r] < b.nextSession;
    }
  }

  /** The session objects after GetOrCreate are those before and possibly one new one. */
  lemma CreateKeepsInv(cfg: Config, b: Broker, ref: ActorRef)
    requires BrokerInv(cfg, b)
    ensures BrokerInv(cfg, GetOrCreate(b, ref))
  {
    InitialReachable(cfg);
    assert EntryOk(cfg, Entry(ref, INITIAL), b.admitted);
    CreateIsConsistent(b, ref);
    hide Reachable, EntryOk, TicketInv, AdmissionsOk, Routed, GoldenInert, SessionsReachable, Consistent;
    SetEntryKeepsInv(cfg, b, b.nextSession, Entry(ref, INITIAL));
  }

  lemma SessionStepFacts(cfg: Config, s: State, l: Label)
    requires Inv(cfg, s) && Enabled(cfg, s, l)
    ensures Apply(cfg, s, l).conns.Keys == if l.LAttach? then s.conns.Keys + {l.conn} else s.conns.Keys
    ensures !l.LEnsureStarted? && !s.core.reader.started ==>
              !Apply(cfg, s, l).core.reader.started && Apply(cfg, s, l).log.received == s.log.received
  {
    hide Enabled, Apply, LogInv, FlowInv, ContentInv;
    KnownConnections(s);
    hide PlaceInv, FreshInv;
    StepConns(cfg, s, l);
    if !l.LEnsureStarted? && !s.core.reader.started {
      StepWithoutReader(cfg, s, l);
    }
  }

  /** A step of one session, with the facts this layer needs about it. */
  lemma StepKeepsEntry(cfg: Config, e: Entry, admitted: map<Conn, Admission>, l: Label)
    requires EntryOk(cfg, e, admitted) && Enabled(cfg, e.state, l)
    requires l.LEnsureStarted? ==> !IsGolden(e.ref)
    requires l.LAttach? ==> l.conn in admitted && admitted[l.conn].ref == e.ref
    ensures EntryOk(cfg, e.(state := Apply(cfg, e.state, l)), admitted)
  {
    hide Enabled, Apply, Inv, Reachable;
    ReachableInv(cfg, e.state);
    ReachableStep(cfg, e.state, l);
    SessionStepFacts(cfg, e.state, l);
  }

  lemma EntryFromInv(cfg: Config, b: Broker, sid: nat)
    requires BrokerInv(cfg, b) && sid in b.sessions
    ensures EntryOk(cfg, b.sessions[sid], b.admitted)
  {
    hide Reachable, TicketInv, AdmissionsOk;
  }

  lemma SessionStepKeepsInv(cfg: Config, b: Broker, sid: nat, l: Label)
    requires BrokerInv(cfg, b) && sid in b.sessions && Enabled(cfg, b.sessions[sid].state, l)
    requires l.LEnsureStarted? ==> !IsGolden(b.sessions[sid].ref)
    requires l.LAttach? ==> l.conn in b.admitted && b.admitted[l.conn].ref == b.sessions[sid].ref
    ensures BrokerInv(cfg, b.(sessions := Update(b, sid, Apply(cfg, b.sessions[sid].state, l))))
  {
    hide Enabled, Apply, Reachable, EntryOk, TicketInv, AdmissionsOk, Routed, GoldenInert, SessionsReachable;
    EntryFromInv(cfg, b, sid);
    StepKeepsEntry(cfg, b.sessions[sid], b.admitted, l);
    SetEntryKeepsInv(cfg, b, sid, b.sessions[sid].(state := Apply(cfg, b.sessions[sid].state, l)));
  }

  lemma IssueKeepsAdmissions(tickets: TicketState, admitted: map<Conn, Admission>, l: TicketLabel)
    requires TicketInv(tickets) && AdmissionsOk(tickets, admitted) && TicketEnabled(tickets, l) && !l.TPresent?
    ensures TicketInv(TicketStep(tickets, l)) && AdmissionsOk(TicketStep(tickets, l), admitted)
  {
    TicketStepKeepsInv(tickets, l);
    assert TicketStep(tickets, l).grants == tickets.grants;
    assert forall t :: Granted(tickets, t) ==> Granted(TicketStep(tickets, l), t);
  }

  lemma GrantsGrow(tickets: TicketState, t: string, u: string)
    requires Granted(tickets, u)
    ensures Granted(TicketStep(tickets, TPresent(t)), u)
  {
    var i :| 0 <= i < |tickets.grants| && tickets.grants[i].ticket == u;
    assert TicketStep(tickets, TPresent(t)).grants[i].ticket == u;
  }

  /** A ticket still in the table was never granted. */
  lemma UnspentIsUngranted(tickets: TicketState, t: string)
    requires TicketInv(tickets) && t in tickets.table
    ensures !Granted(tickets, t)
  {
    assert forall i :: 0 <= i < |tickets.grants| ==> tickets.grants[i] in tickets.grants;
  }

  lemma PresentKeepsAdmissions(tickets: TicketState, admitted: map<Conn, Admission>, t: string, c: Conn)
    requires TicketInv(tickets) && AdmissionsOk(tickets, admitted) && c !in admitted
    ensures var tickets', r := TicketStep(tickets, TPresent(t)), Redeem(tickets.table, t, tickets.now);
            && TicketInv(tickets') && AdmissionsOk(tickets', admitted)
            && (r.Some? ==> AdmissionsOk(tickets', admitted[c := Admission(r.value, t)]))
  {
    TicketStepKeepsInv(tickets, TPresent(t));
    var tickets', r := TicketStep(tickets, TPresent(t)), Redeem(tickets.table, t, tickets.now);
    forall d | d in admitted ensures Granted(tickets', admitted[d].ticket) {
      GrantsGrow(tickets, t, admitted[d].ticket);
    }
    if r.Some? {
      UnspentIsUngranted(tickets, t);
      assert tickets'.grants[|tickets.grants|].ticket == t;
      assert Granted(tickets', t);
      hide Granted;
    }
  }

  lemma TicketsKeepInv(cfg: Config, b: Broker, l: BrokerLabel)
    requires BrokerInv(cfg, b) && BrokerEnabled(cfg, b, l)
    requires l.BIssue? || l.BPresent? || l.BTick?
    ensures BrokerInv(cfg, BrokerStep(cfg, b, l))
  {
    hide TicketInv, AdmissionsOk, GoldenInert, SessionsReachable;
    match l
    case BIssue(ref, t) => IssueKeepsAdmissions(b.tickets, b.admitted, TIssue(t, ref));
    case BPresent(t, c) => PresentKeepsAdmissions(b.tickets, b.admitted, t, c);
    case BTick(d) => IssueKeepsAdmissions(b.tickets, b.admitted, TTick(d));
  }

  lemma BrokerStepKeepsInv(cfg: Config, b: Broker, l: BrokerLabel)
    requires BrokerInv(cfg, b) && BrokerEnabled(cfg, b, l)
    ensures BrokerInv(cfg, BrokerStep(cfg, b, l))
  {
    hide Apply, TicketInv, AdmissionsOk, Routed, GoldenInert, SessionsReachable;
    match l
    case BEnsureStarted(ref, token) =>
      CreateKeepsInv(cfg, b, ref);
      CreateIsConsistent(b, ref);
      var b1 := GetOrCreate(b, ref);
      SessionStepKeepsInv(cfg, b1, b1.registry[ref], LEnsureStarted(token));
    case BAttach(c) =>
      var ref := b.admitted[c].ref;
      CreateKeepsInv(cfg, b, ref);
      CreateIsConsistent(b, ref);
      var b1 := GetOrCreate(b, ref);
      SessionStepKeepsInv(cfg, b1, b1.registry[ref], LAttach(c));
    case BSession(sid, step) => SessionStepKeepsInv(cfg, b, sid, step);
    case _ => TicketsKeepInv(cfg, b, l);
  }

  // ---- Runs

  predicate IsBrokerRun(cfg: Config, b: Broker, ls: seq<BrokerLabel>)
    decreases |ls|
  {
    ls == [] || (BrokerEnabled(cfg, b, ls[0]) && IsBrokerRun(cfg, BrokerStep(cfg, b, ls[0]), ls[1..]))
  }

  function AfterBroker(cfg: Config, b: Broker, ls: seq<BrokerLabel>): Broker
    requires IsBrokerRun(cfg, b, ls)
    decreases |ls|
  {
    if ls == [] then b else AfterBroker(cfg, BrokerStep(cfg, b, ls[0]), ls[1..])
  }

  lemma {:induction false} BrokerRunKeepsInv(cfg: Config, b: Broker, ls: seq<BrokerLabel>)
    requires BrokerInv(cfg, b) && IsBrokerRun(cfg, b, ls)
    ensures BrokerInv(cfg, AfterBroker(cfg, b, ls))
    decreases |ls|
  {
    hide BrokerInv, BrokerEnabled, BrokerStep;
    if ls != [] {
      BrokerStepKeepsInv(cfg, b, ls[0]);
      BrokerRunKeepsInv(cfg, BrokerStep(cfg, b, ls[0]), ls[1..]);
    }
  }

  ghost predicate ReachableBroker(cfg: Config, b: Broker) {
    exists ls :: IsBrokerRun(cfg, NEW_BROKER, ls) && AfterBroker(cfg, NEW_BROKER, ls) == b
  }

  lemma ReachableBrokerInv(cfg: Config, b: Broker)
    requires ReachableBroker(cfg, b)
    ensures BrokerInv(cfg, b)
  {
    var ls :| IsBrokerRun(cfg, NEW_BROKER, ls) && AfterBroker(cfg, NEW_BROKER, ls) == b;
    assert BrokerInv(cfg, NEW_BROKER);
    hide BrokerInv, BrokerEnabled, BrokerStep;
    BrokerRunKeepsInv(cfg, NEW_BROKER, ls);
  }

  // ---- What holds across actors

  /** Every session in every run of the whole broker is a reachable state of the session machine, so
      everything proved about one session holds for all of them at once. */
  lemma SessionsBehaveAsAlone(cfg: Config, b: Broker, sid: nat)
    requires ReachableBroker(cfg, b) && sid in b.sessions
    ensures Reachable(cfg, b.sessions[sid].state)
  {
    hide Reachable;
    ReachableBrokerInv(cfg, b);
  }

  lemma StartedOnce(cfg: Config, s: State)
    requires Reachable(cfg, s)
    ensures s.readers <= 1 && (s.log.received != [] ==> s.readers == 1)
    ensures s.readers == 1 <==> s.core.reader.started
  {
    hide Reachable, LogInv, FlowInv, ContentInv, PlaceInv;
    ReachableInv(cfg, s);
  }

  /** Every event frame attempted on a socket carries an event that the reader of one session
      received, that session is the only one ever created for its actor, the socket's ticket was
      issued to exactly that actor, and no other session ever had the socket. */
  lemma RoutingIsolation(cfg: Config, b: Broker, sid: nat, c: Conn, f: Frame)
    requires ReachableBroker(cfg, b) && sid in b.sessions && c in b.sessions[sid].state.conns
    requires f in b.sessions[sid].state.conns[c].tried && f.Event?
    ensures var s, ref := b.sessions[sid].state, b.sessions[sid].ref;
            && f.key < |s.log.received|
            && DeliveryTheorems.Carries(f, PendingEvent(f.key, s.log.received[f.key]))
            && c in b.admitted && b.admitted[c].ticket in b.tickets.issued
            && b.tickets.issued[b.admitted[c].ticket].ref == ref
            && (forall other :: other in b.sessions && b.sessions[other].ref == ref ==> other == sid)
            && (forall other :: other in b.sessions && c in b.sessions[other].state.conns ==> other == sid)
            && s.readers == 1
  {
    hide Reachable, DeliveryTheorems.Carries, DecodeEnvelope, GoldenInert, TicketInv;
    ReachableBrokerInv(cfg, b);
    var s := b.sessions[sid].state;
    AckTheorems.AckRemovesItsEvent(cfg, s, c, f);
    StartedOnce(cfg, s);
  }

  /** At most one reader is ever started for an actor, and none once its session is closed. */
  lemma OneReaderPerActor(cfg: Config, b: Broker, sid: nat, l: Label)
    requires ReachableBroker(cfg, b) && sid in b.sessions && Enabled(cfg, b.sessions[sid].state, l)
    ensures var s := b.sessions[sid].state;
            && s.readers <= 1
            && (s.core.reader.closed ==> Apply(cfg, s, l).readers == s.readers)
            && (Apply(cfg, s, l).readers != s.readers ==> l.LEnsureStarted? && s.readers == 0)
  {
    hide Reachable, Routed, TicketInv, AdmissionsOk, Enabled, Apply;
    ReachableBrokerInv(cfg, b);
    StartedOnce(cfg, b.sessions[sid].state);
    StepReaders(cfg, b.sessions[sid].state, l);
  }

  /** Distinct keys below `n` are at most `n`. */
  lemma {:induction false} FramesBelow(fs: seq<Frame>, n: nat)
    requires Increasing(fs) && forall i :: 0 <= i < |fs| ==> fs[i].key < n
    ensures |fs| <= n
  {
    if fs != [] {
      FramesBelow(fs[..|fs| - 1], fs[|fs| - 1].key);
    }
  }

  lemma {:induction false} TriggersBelow(keys: seq<nat>, n: nat)
    requires forall i, j :: 0 <= i < j < |keys| ==> keys[i] < keys[j]
    requires forall i :: 0 <= i < |keys| ==> keys[i] < n
    ensures |keys| <= n
  {
    if keys != [] {
      TriggersBelow(keys[..|keys| - 1], keys[|keys| - 1]);
    }
  }

  lemma UnheardConnection(h: ConnLog)
    requires ShapeOk(h) && KeysOk(h, 0)
    ensures h.tried <= [Hello]
  {
    FramesBelow(h.batch, 0);
    FramesBelow(h.live, 0);
    assert h.tried == HelloPart(h.helloTried);
  }

  lemma UnheardSession(cfg: Config, s: State)
    requires Inv(cfg, s) && !s.core.reader.started && s.log.received == []
    ensures s.readers == 0 && Reader !in s.threads.pcs
    ensures s.core.mail.buffer == [] && s.log.stamps == map[] && s.resumes.triggers == []
    ensures forall c :: c in s.conns ==> s.conns[c].tried <= [Hello]
  {
    hide ShapeOk, KeysOk, FlowsOk, PlaceInv, ContentInv;
    TriggersBelow(s.resumes.triggers, 0);
    assert forall id :: id !in s.log.stamps;
    forall c | c in s.conns ensures s.conns[c].tried <= [Hello] {
      UnheardConnection(s.conns[c]);
    }
  }

  /** A golden actor's session stays inert towards Slack in every run: no reader, nothing buffered,
      stamped or resumed, and its sockets see at most hello. */
  lemma GoldenIsInert(cfg: Config, b: Broker, sid: nat)
    requires ReachableBroker(cfg, b) && sid in b.sessions && b.sessions[sid].ref.atespace == "ate-golden"
    ensures var s := b.sessions[sid].state;
            && s.readers == 0 && Reader !in s.threads.pcs
            && s.core.mail.buffer == [] && s.log.stamps == map[] && s.resumes.triggers == []
            && forall c :: c in s.conns ==> s.conns[c].tried <= [Hello]
  {
    hide Reachable;
    ReachableBrokerInv(cfg, b);
    var s := b.sessions[sid].state;
    ReachableInv(cfg, s);
    UnheardSession(cfg, s);
  }

  // ---- Tokens

  /** The label at `i` is the last bootstrap request of this actor. */
  predicate IsLastStartOf(ls: seq<BrokerLabel>, ref: ActorRef, i: nat) {
    && i < |ls| && ls[i].BEnsureStarted? && ls[i].ref == ref
    && forall j :: i < j < |ls| ==> !(ls[j].BEnsureStarted? && ls[j].ref == ref)
  }

  function TokenOf(b: Broker, ref: ActorRef): string {
    SessionFor(b, ref).core.reader.appToken
  }

  lemma StepToken(cfg: Config, s: State, l: Label)
    requires Enabled(cfg, s, l)
    ensures Apply(cfg, s, l).core.reader.appToken == if l.LEnsureStarted? then l.token else s.core.reader.appToken
  {
    LifecycleTheorems.StepReaderFields(cfg, s, l);
  }

  lemma InSessionToken(cfg: Config, b: Broker, of: ActorRef, l: Label, ref: ActorRef)
    requires Consistent(b) && (l.LEnsureStarted? || (l.LAttach? && l.conn !in SessionFor(b, of).conns))
    ensures TokenOf(InSession(cfg, b, of, l), ref) ==
            if l.LEnsureStarted? && of == ref then l.token else TokenOf(b, ref)
  {
    var b1 := GetOrCreate(b, of);
    SessionsStay(b, of, ref);
    SessionsStay(b, of, of);
    CreateIsConsistent(b, of);
    StepToken(cfg, SessionFor(b1, of), l);
    hide Apply;
  }

  lemma OwnStepToken(cfg: Config, b: Broker, sid: nat, l: Label, ref: ActorRef)
    requires Consistent(b) && sid in b.sessions && OwnStep(l) && Enabled(cfg, b.sessions[sid].state, l)
    ensures TokenOf(b.(sessions := Update(b, sid, Apply(cfg, b.sessions[sid].state, l))), ref) == TokenOf(b, ref)
  {
    StepToken(cfg, b.sessions[sid].state, l);
    hide Apply, Enabled;
  }

  lemma BrokerStepToken(cfg: Config, b: Broker, l: BrokerLabel, ref: ActorRef)
    requires Consistent(b) && BrokerEnabled(cfg, b, l)
    ensures TokenOf(BrokerStep(cfg, b, l), ref) ==
            if l.BEnsureStarted? && l.ref == ref then l.token else TokenOf(b, ref)
  {
    hide Consistent, InSession, Enabled, Apply;
    match l
    case BEnsureStarted(of, token) => InSessionToken(cfg, b, of, LEnsureStarted(token), ref);
    case BAttach(c) => InSessionToken(cfg, b, b.admitted[c].ref, LAttach(c), ref);
    case BSession(sid, step) => OwnStepToken(cfg, b, sid, step, ref);
    case _ =>
  }

  lemma {:induction false} RunToken(cfg: Config, b: Broker, ls: seq<BrokerLabel>, ref: ActorRef)
    requires BrokerInv(cfg, b) && IsBrokerRun(cfg, b, ls)
    ensures var b' := AfterBroker(cfg, b, ls);
            && (forall i: nat :: IsLastStartOf(ls, ref, i) ==> TokenOf(b', ref) == ls[i].token)
            && ((forall i :: 0 <= i < |ls| ==> !(ls[i].BEnsureStarted? && ls[i].ref == ref)) ==>
                  TokenOf(b', ref) == TokenOf(b, ref))
    decreases |ls|
  {
    hide BrokerEnabled, BrokerStep, TokenOf, Consistent, TicketInv, AdmissionsOk, Routed, GoldenInert,
      SessionsReachable;
    if ls != [] {
      var b1 := BrokerStep(cfg, b, ls[0]);
      BrokerStepToken(cfg, b, ls[0], ref);
      BrokerStepKeepsInv(cfg, b, ls[0]);
      hide BrokerInv;
      RunToken(cfg, b1, ls[1..], ref);
      forall i: nat | IsLastStartOf(ls, ref, i) ensures TokenOf(AfterBroker(cfg, b, ls), ref) == ls[i].token {
        if i > 0 {
          assert IsLastStartOf(ls[1..], ref, i - 1);
        } else {
          assert forall j :: 0 <= j < |ls[1..]| ==> ls[1..][j] == ls[j + 1];
        }
      }
    }
  }

  /** In every run of the broker an actor's session dials Slack with the token of that actor's own last
      bootstrap request. */
  lemma TokenIsTheActorsLatest(cfg: Config, ls: seq<BrokerLabel>, ref: ActorRef, i: nat)
    requires IsBrokerRun(cfg, NEW_BROKER, ls) && IsLastStartOf(ls, ref, i)
    ensures TokenOf(AfterBroker(cfg, NEW_BROKER, ls), ref) == ls[i].token
  {
    assert BrokerInv(cfg, NEW_BROKER);
    hide BrokerInv, TokenOf;
    RunToken(cfg, NEW_BROKER, ls, ref);
  }

  // ---- Tickets come after the reader

  /** The session has a reader, or was closed before it could get one. */
  predicate Hears(b: Broker, ref: ActorRef) {
    SessionFor(b, ref).core.reader.started || SessionFor(b, ref).core.reader.closed
  }

  ghost predicate TicketsFollow(b: Broker) {
    forall t :: t in b.tickets.issued ==>
      b.tickets.issued[t].ref.atespace == "ate-golden" || Hears(b, b.tickets.issued[t].ref)
  }

  lemma InSessionHears(cfg: Config, b: Broker, of: ActorRef, l: Label, ref: ActorRef)
    requires Consistent(b) && (l.LEnsureStarted? || (l.LAttach? && l.conn !in SessionFor(b, of).conns))
    ensures Hears(b, ref) ==> Hears(InSession(cfg, b, of, l), ref)
  {
    var b1 := GetOrCreate(b, of);
    SessionsStay(b, of, ref);
    SessionsStay(b, of, of);
    CreateIsConsistent(b, of);
    LifecycleTheorems.StepReaderFields(cfg, SessionFor(b1, of), l);
    hide Apply;
  }

  lemma OwnStepHears(cfg: Config, b: Broker, sid: nat, l: Label, ref: ActorRef)
    requires Consistent(b) && sid in b.sessions && OwnStep(l) && Enabled(cfg, b.sessions[sid].state, l)
    ensures Hears(b, ref) ==> Hears(b.(sessions := Update(b, sid, Apply(cfg, b.sessions[sid].state, l))), ref)
  {
    LifecycleTheorems.StepReaderFields(cfg, b.sessions[sid].state, l);
    hide Apply, Enabled;
  }

  lemma BrokerStepHears(cfg: Config, b: Broker, l: BrokerLabel, ref: ActorRef)
    requires Consistent(b) && BrokerEnabled(cfg, b, l)
    ensures Hears(b, ref) ==> Hears(BrokerStep(cfg, b, l), ref)
  {
    hide Consistent, InSession, Enabled, Apply;
    match l
    case BEnsureStarted(of, token) => InSessionHears(cfg, b, of, LEnsureStarted(token), ref);
    case BAttach(c) => InSessionHears(cfg, b, b.admitted[c].ref, LAttach(c), ref);
    case BSession(sid, step) => OwnStepHears(cfg, b, sid, step, ref);
    case _ =>
  }

  lemma StepIssues(cfg: Config, b: Broker, l: BrokerLabel, t: string)
    requires BrokerEnabled(cfg, b, l) && t in BrokerStep(cfg, b, l).tickets.issued
    ensures var ref := BrokerStep(cfg, b, l).tickets.issued[t].ref;
            || (t in b.tickets.issued && b.tickets.issued[t].ref == ref)
            || ref.atespace == "ate-golden" || Hears(b, ref)
  {
    hide Apply, Enabled, SessionFor;
  }

  lemma {:induction false} RunTicketsFollow(cfg: Config, b: Broker, ls: seq<BrokerLabel>)
    requires BrokerInv(cfg, b) && TicketsFollow(b) && IsBrokerRun(cfg, b, ls)
    ensures TicketsFollow(AfterBroker(cfg, b, ls))
    decreases |ls|
  {
    hide BrokerEnabled, BrokerStep, Hears, Consistent, TicketInv, AdmissionsOk, Routed, GoldenInert, SessionsReachable;
    if ls != [] {
      var b1 := BrokerStep(cfg, b, ls[0]);
      forall t | t in b1.tickets.issued
        ensures b1.tickets.issued[t].ref.atespace == "ate-golden" || Hears(b1, b1.tickets.issued[t].ref)
      {
        StepIssues(cfg, b, ls[0], t);
        BrokerStepHears(cfg, b, ls[0], b1.tickets.issued[t].ref);
      }
      BrokerStepKeepsInv(cfg, b, ls[0]);
      hide BrokerInv;
      RunTicketsFollow(cfg, b1, ls[1..]);
    }
  }

  /** In every run of the broker, whoever holds a ticket for an actor that is not golden, the actor's
      session has its reader, or was closed. */
  lemma TicketsFollowReaders(cfg: Config, b: Broker, t: string)
    requires ReachableBroker(cfg, b) && t in b.tickets.issued && b.tickets.issued[t].ref.atespace != "ate-golden"
    ensures Hears(b, b.tickets.issued[t].ref)
  {
    var ls :| IsBrokerRun(cfg, NEW_BROKER, ls) && AfterBroker(cfg, NEW_BROKER, ls) == b;
    assert BrokerInv(cfg, NEW_BROKER) && TicketsFollow(NEW_BROKER);
    hide BrokerInv, Hears;
    RunTicketsFollow(cfg, NEW_BROKER, ls);
  }
}
