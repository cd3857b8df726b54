/** The loop of writeToSink (cmd/egress-broker/registry.go), first on its own, where what each test
    finds and whether each write succeeds come in as parameters, then among all the other goroutines:
    whatever they do meanwhile, a call does what the loop does with the answers it gets. */
module WriteLoop {
  import opened Wrappers
  import SocketMode
  import opened SessionCore
  import opened SessionMachine
  import opened Placement
  import opened LogRefinement
  import opened Delivery
  import opened Content
  import opened SessionInvariant

  /** Frames go out in order until the sink is found replaced or a write fails; the failed write is
      the last one attempted. `found[i]` and `accepted[i]` are the answers for frame `i`. */
  predicate Wrote(sink: Conn, frames: seq<Frame>, found: seq<Option<Conn>>, accepted: seq<bool>, tried: seq<Frame>)
    requires |found| == |accepted| == |frames|
  {
    && tried <= frames
    && (forall i :: 0 <= i < |tried| ==> found[i] == Some(sink))
    && (forall i :: 0 <= i < |tried| - 1 ==> accepted[i])
    && (tried == frames || found[|tried|] != Some(sink) || (|tried| > 0 && !accepted[|tried| - 1]))
  }

  /** The answers determine what is attempted. */
  lemma WroteIsUnique(sink: Conn, frames: seq<Frame>, found: seq<Option<Conn>>, accepted: seq<bool>,
                      a: seq<Frame>, b: seq<Frame>)
    requires |found| == |accepted| == |frames|
    requires Wrote(sink, frames, found, accepted, a) && Wrote(sink, frames, found, accepted, b)
    ensures a == b
  {
  }

  method WriteToSink(sink: Conn, frames: seq<Frame>, found: seq<Option<Conn>>, accepted: seq<bool>)
    returns (tried: seq<Frame>)
    requires |found| == |accepted| == |frames|
    ensures Wrote(sink, frames, found, accepted, tried)
  {
    tried := [];
    for i := 0 to |frames|
      invariant tried == frames[..i]
      invariant forall j :: 0 <= j < i ==> found[j] == Some(sink) && accepted[j]
    {
      if found[i] != Some(sink) {
        return;
      }
      tried := tried + [frames[i]];
      if !accepted[i] {
        return;
      }
    }
  }

  // ---- A call among the other goroutines

  /** What thread `t` is answered and what it attempts: the sinks its tests find, the outcomes of its
      writes, and the frames it passes to WriteFrame. */
  datatype Seen = Seen(found: seq<Option<Conn>>, accepted: seq<bool>, tried: seq<Frame>)

  const NOTHING := Seen([], [], [])

  function Watch(s: State, t: Thread, l: Label, o: Seen): Seen {
    if t !in s.threads.pcs || !s.threads.pcs[t].Writing? || s.threads.pcs[t].frames == [] then o
    else if l == LCheck(t) then o.(found := o.found + [s.core.link.sink])
    else if l.LWrite? && l.thread == t then
      o.(accepted := o.accepted + [l.ok], tried := o.tried + [s.threads.pcs[t].frames[0]])
    else o
  }

  function Observed(cfg: Config, s: State, t: Thread, ls: seq<Label>, o: Seen): Seen
    requires IsRun(cfg, s, ls)
    decreases |ls|
  {
    if ls == [] then o
    else Observed(cfg, Apply(cfg, s, ls[0]), t, ls[1..], Watch(s, t, ls[0], o))
  }

  /** Where a call stands that was to write `frames` to `c` and has seen `o`. */
  predicate CallOk(pc: Pc, c: Conn, frames: seq<Frame>, o: Seen) {
    var n := |o.tried|;
    && pc.Writing? && pc.conn == c && pc.phase != Waiting
    && n <= |frames| && o.tried == frames[..n] && pc.frames == frames[n..] && |o.accepted| == n <= |o.found| <= n + 1
    && (forall i :: 0 <= i < n ==> o.found[i] == Some(c))
    && (forall i :: 0 <= i < n - 1 ==> o.accepted[i])
    && (pc.phase != Releasing ==> n > 0 ==> o.accepted[n - 1])
    && (pc.phase == Checking ==> |o.found| == n)
    && (pc.phase == Committed ==> |o.found| == n + 1 && n < |frames| && o.found[n] == Some(c))
    && (pc.phase == Releasing ==>
          || n == |frames|
          || (n < |frames| && |o.found| == n + 1 && o.found[n] != Some(c))
          || (n > 0 && !o.accepted[n - 1]))
  }

  /** The call is a writeToSink of `frames` by `t`, which holds `sinkWrite`; `before` is what had been
      tried on its connection when it began. */
  ghost predicate InCall(s: State, t: Thread, c: Conn, frames: seq<Frame>, before: seq<Frame>, o: Seen) {
    && t in s.threads.pcs && CallOk(s.threads.pcs[t], c, frames, o)
    && c in s.conns && s.conns[c].tried == before + o.tried
  }

  predicate IsOwn(t: Thread, l: Label) {
    (l.LAcquire? || l.LCheck? || l.LWrite? || l.LRelease?) && l.thread == t
  }

  /** Other goroutines neither move the caller nor write to its connection meanwhile. */
  lemma OthersLeaveTheCall(cfg: Config, s: State, t: Thread, c: Conn, l: Label)
    requires FreshInv(s) && LockOk(s.threads) && Enabled(cfg, s, l) && !IsOwn(t, l)
    requires t in s.threads.pcs && s.threads.pcs[t].Writing? && s.threads.pcs[t].phase != Waiting && c in s.conns
    ensures var s' := Apply(cfg, s, l);
            && t in s'.threads.pcs && s'.threads.pcs[t] == s.threads.pcs[t]
            && c in s'.conns && s'.conns[c].tried == s.conns[c].tried
  {
    if l.LWrite? || l.LAcquire? || l.LCheck? || l.LRelease? {
      OtherWritersWait(cfg, s, t, l);
    } else if l.LEvent? || l.LDeliver? {
      StampingLeavesTheCall(cfg, s, t, c, l);
    } else if IsIdleLabel(l) {
      hide LockOk, FreshInv;
      IdleLabelFrame(cfg, s, l);
    } else {
      hide LockOk;
    }
  }

  /** While `t` holds the lock, no other writer can take it, test, write or unlock. */
  lemma OtherWritersWait(cfg: Config, s: State, t: Thread, l: Label)
    requires LockOk(s.threads) && !IsOwn(t, l) && (l.LWrite? || l.LAcquire? || l.LCheck? || l.LRelease?)
    requires t in s.threads.pcs && s.threads.pcs[t].Writing? && s.threads.pcs[t].phase != Waiting
    ensures !Enabled(cfg, s, l)
  {
  }

  lemma StampingLeavesTheCall(cfg: Config, s: State, t: Thread, c: Conn, l: Label)
    requires Enabled(cfg, s, l) && (l.LEvent? || l.LDeliver?)
    requires t in s.threads.pcs && s.threads.pcs[t].Writing? && c in s.conns
    ensures var s' := Apply(cfg, s, l);
            && t in s'.threads.pcs && s'.threads.pcs[t] == s.threads.pcs[t]
            && c in s'.conns && s'.conns[c].tried == s.conns[c].tried
  {
    hide SocketMode.RewriteEnvelopeId, SocketMode.IsEventFrame, StampAll, RecordIds, RecordStamps;
  }

  lemma OwnStep(cfg: Config, s: State, t: Thread, c: Conn, frames: seq<Frame>, before: seq<Frame>, o: Seen, l: Label)
    requires InCall(s, t, c, frames, before, o) && Enabled(cfg, s, l) && IsOwn(t, l) && !l.LRelease?
    ensures InCall(Apply(cfg, s, l), t, c, frames, before, Watch(s, t, l, o))
  {
  }

  lemma StepKeepsCall(cfg: Config, s: State, t: Thread, c: Conn, frames: seq<Frame>, before: seq<Frame>, o: Seen,
                      l: Label)
    requires FreshInv(s) && LockOk(s.threads) && InCall(s, t, c, frames, before, o)
    requires Enabled(cfg, s, l) && l != LRelease(t)
    ensures InCall(Apply(cfg, s, l), t, c, frames, before, Watch(s, t, l, o))
  {
    if IsOwn(t, l) {
      OwnStep(cfg, s, t, c, frames, before, o, l);
    } else {
      hide Enabled, Apply;
      OthersLeaveTheCall(cfg, s, t, c, l);
    }
  }

  lemma {:induction false} RunKeepsCall(cfg: Config, s: State, t: Thread, c: Conn, frames: seq<Frame>,
                                        before: seq<Frame>, o: Seen, ls: seq<Label>)
    requires Inv(cfg, s) && InCall(s, t, c, frames, before, o) && IsRun(cfg, s, ls) && LRelease(t) !in ls
    ensures InCall(After(cfg, s, ls), t, c, frames, before, Observed(cfg, s, t, ls, o))
    decreases |ls|
  {
    hide Enabled, Apply, InCall, Watch;
    if ls != [] {
      var l := ls[0];
      StepKeepsCall(cfg, s, t, c, frames, before, o, l);
      StepKeepsInv(cfg, s, l);
      hide Inv;
      RunKeepsCall(cfg, Apply(cfg, s, l), t, c, frames, before, Watch(s, t, l, o), ls[1..]);
    }
  }

  lemma FinishedCallWrote(pc: Pc, c: Conn, frames: seq<Frame>, o: Seen, found: seq<Option<Conn>>, accepted: seq<bool>)
    requires CallOk(pc, c, frames, o) && pc.phase == Releasing && |found| == |accepted| == |frames|
    requires o.found <= found && o.accepted <= accepted
    ensures Wrote(c, frames, found, accepted, o.tried)
  {
  }

  /** A call at one of its tests has seen nothing of what is still to come. */
  lemma CallBegins(cfg: Config, s: State, t: Thread)
    requires Inv(cfg, s) && InPhase(s, t, Checking)
    ensures var pc := s.threads.pcs[t];
            pc.conn in s.conns && InCall(s, t, pc.conn, pc.frames, s.conns[pc.conn].tried, NOTHING)
  {
    hide Inv;
    var pc := s.threads.pcs[t];
    WriterHasConnection(cfg, s, t);
    assert pc.frames[..0] == [] && pc.frames[0..] == pc.frames;
    assert s.conns[pc.conn].tried + [] == s.conns[pc.conn].tried;
  }

  lemma WriterHasConnection(cfg: Config, s: State, t: Thread)
    requires Inv(cfg, s) && t in s.threads.pcs && s.threads.pcs[t].Writing?
    ensures s.threads.pcs[t].conn in s.conns
  {
    hide LogInv, FreshInv, FlowInv, ContentInv;
    KnownConnections(s);
  }

  lemma CallEnds(s: State, t: Thread, c: Conn, frames: seq<Frame>, before: seq<Frame>, o: Seen,
                 found: seq<Option<Conn>>, accepted: seq<bool>)
    requires InCall(s, t, c, frames, before, o) && InPhase(s, t, Releasing) && |found| == |accepted| == |frames|
    requires o.found <= found && o.accepted <= accepted
    ensures Wrote(c, frames, found, accepted, o.tried)
    ensures c in s.conns && s.conns[c].tried == before + o.tried
  {
    FinishedCallWrote(s.threads.pcs[t], c, frames, o, found, accepted);
  }

  /** Take any moment at which a goroutine holds `sinkWrite` and is about to test, and any
      continuation up to the moment it is about to unlock. What it attempts in between is what the
      sequential loop attempts with the answers it gets, whatever the answers it no longer asks for,
      and nothing else is written to its connection meanwhile. */
  lemma CallIsTheLoop(cfg: Config, s: State, t: Thread, ls: seq<Label>, found: seq<Option<Conn>>,
                      accepted: seq<bool>)
    requires Reachable(cfg, s) && InPhase(s, t, Checking)
    requires IsRun(cfg, s, ls) && LRelease(t) !in ls && InPhase(After(cfg, s, ls), t, Releasing)
    requires |found| == |accepted| == |s.threads.pcs[t].frames|
    requires Observed(cfg, s, t, ls, NOTHING).found <= found
    requires Observed(cfg, s, t, ls, NOTHING).accepted <= accepted
    ensures var c, s', o := s.threads.pcs[t].conn, After(cfg, s, ls), Observed(cfg, s, t, ls, NOTHING);
            && Wrote(c, s.threads.pcs[t].frames, found, accepted, o.tried)
            && c in s.conns && c in s'.conns && s'.conns[c].tried == s.conns[c].tried + o.tried
  {
    hide Reachable, Inv, IsRun, After, Observed, InCall, Enabled, Apply, Wrote;
    ReachableInv(cfg, s);
    CallBegins(cfg, s, t);
    var c, frames, before := s.threads.pcs[t].conn, s.threads.pcs[t].frames, s.conns[s.threads.pcs[t].conn].tried;
    RunKeepsCall(cfg, s, t, c, frames, before, NOTHING, ls);
    CallEnds(After(cfg, s, ls), t, c, frames, before, Observed(cfg, s, t, ls, NOTHING), found, accepted);
  }
}
