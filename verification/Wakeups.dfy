/** Buffered events of an absent actor: when the broker will still wake it. A resume is only ever
    started by an arriving event, so events can be left waiting with none under way. */
module Wakeups {
  import opened Wrappers
  import opened SocketMode
  import opened SessionCore
  import opened SessionMachine
  import opened LogRefinement
  import opened Placement
  import opened Delivery
  import opened Content
  import opened SessionInvariant
  import opened DeliveryTheorems
  import opened Progress
  import opened PromptTimers

  // ---- Without news

  lemma StepWithoutNews(cfg: Config, s: State, l: Label)
    requires Enabled(cfg, s, l)
    ensures var s' := Apply(cfg, s, l);
            && |s.log.received| <= |s'.log.received|
            && (|s'.log.received| == |s.log.received| ==>
                  s'.resumes.triggers == s.resumes.triggers && s'.resumes.running <= s.resumes.running)
  {
    hide RewriteEnvelopeId, IsEventFrame, StampAll, RecordIds, RecordStamps;
  }

  lemma {:induction false} RunWithoutNews(cfg: Config, s: State, ls: seq<Label>)
    requires IsRun(cfg, s, ls)
    ensures var s' := After(cfg, s, ls);
            && |s.log.received| <= |s'.log.received|
            && (|s'.log.received| == |s.log.received| ==>
                  s'.resumes.triggers == s.resumes.triggers && s'.resumes.running <= s.resumes.running)
    decreases |ls|
  {
    hide Enabled, Apply;
    if ls != [] {
      StepWithoutNews(cfg, s, ls[0]);
      RunWithoutNews(cfg, Apply(cfg, s, ls[0]), ls[1..]);
    }
  }

  /** The continuation `ls` receives nothing and ends where a resume call may succeed. */
  ghost predicate WakesWithoutNews(cfg: Config, s: State, ls: seq<Label>) {
    && IsRun(cfg, s, ls) && |After(cfg, s, ls).log.received| == |s.log.received|
    && Enabled(cfg, After(cfg, s, ls), LResumeReturns(true))
  }

  /** Unless another event arrives the actor is woken only by a resume call that is running now,
      however many events wait for it. */
  lemma WokenWithoutNewsIff(cfg: Config, s: State)
    ensures s.resumes.running > 0 <==> exists ls :: WakesWithoutNews(cfg, s, ls)
  {
    if s.resumes.running > 0 {
      assert WakesWithoutNews(cfg, s, []);
    }
    forall ls | WakesWithoutNews(cfg, s, ls) ensures s.resumes.running > 0 {
      RunWithoutNews(cfg, s, ls);
    }
  }

  /** Such a wait is reachable with events buffered, nothing under way and none ever tried: the event
      was written to a connection that then went away without acknowledging it. */
  lemma StrandedByDisconnect(cfg: Config, raw: Raw)
    requires IsEventFrame(raw)
    ensures exists s :: Reachable(cfg, s) && s.core.link.sink.None? && s.core.mail.buffer != []
              && !s.core.link.resuming && s.resumes.running == 0
  {
    hide PromptlyReachable, Reachable, IsRun, After, IsEventFrame, RewriteEnvelopeId;
    var s0 := PromptlySettled(cfg);
    var s1 := PromptlyReceived(cfg, s0, raw);
    PromptlyIsReachable(cfg, s1);
    ReachableStep(cfg, s1, LDetach(0));
    var s := Apply(cfg, s1, LDetach(0));
    assert s.core.mail.buffer == [PendingEvent(s0.core.mail.nextKey, raw)];
  }

  lemma PromptlyIsReachable(cfg: Config, s: State)
    requires PromptlyReachable(cfg, s)
    ensures Reachable(cfg, s)
  {
  }

  // ---- With news

  /** The arriving event starts a resume. */
  predicate StartsResume(s: State, l: Label) {
    l.LEvent? && NeedsResume(s.core.link)
  }

  /** The continuation `ls` attaches no connection and then starts a resume. */
  ghost predicate ResumesAfter(cfg: Config, s: State, ls: seq<Label>, l: Label) {
    && IsRun(cfg, s, ls) && After(cfg, s, ls).conns.Keys == s.conns.Keys
    && Enabled(cfg, After(cfg, s, ls), l) && StartsResume(After(cfg, s, ls), l)
  }

  /** A resume call has returned successfully, and the actor has not connected. */
  predicate Presumed(s: State) {
    s.core.link.sink.None? && s.core.link.resuming && s.resumes.running == 0
  }

  /** The session is closed and its reader, if any, is not waiting for a frame. */
  predicate Deaf(s: State) {
    s.core.reader.closed && !s.reading
  }

  lemma StepStaysSilent(cfg: Config, s: State, l: Label)
    requires Inv(cfg, s) && Enabled(cfg, s, l)
    ensures s.conns.Keys <= Apply(cfg, s, l).conns.Keys
    ensures Apply(cfg, s, l).conns.Keys == s.conns.Keys && Presumed(s) ==> Presumed(Apply(cfg, s, l))
    ensures Deaf(s) ==> Deaf(Apply(cfg, s, l))
  {
    hide Inv, Presumed, Deaf;
    OnlyAttachAdds(cfg, s, l);
    if !l.LAttach? {
      StepStaysPresumed(cfg, s, l);
    }
    StepStaysDeaf(cfg, s, l);
  }

  lemma OnlyAttachAdds(cfg: Config, s: State, l: Label)
    requires Inv(cfg, s) && Enabled(cfg, s, l)
    ensures s.conns.Keys <= Apply(cfg, s, l).conns.Keys
    ensures l.LAttach? ==> Apply(cfg, s, l).conns.Keys != s.conns.Keys
  {
    hide LogInv, FlowInv, ContentInv, Apply;
    KnownConnections(s);
    StepConns(cfg, s, l);
    if l.LAttach? {
      assert l.conn in Apply(cfg, s, l).conns.Keys;
    }
  }

  lemma StepStaysPresumed(cfg: Config, s: State, l: Label)
    requires Enabled(cfg, s, l) && !l.LAttach?
    ensures Presumed(s) ==> Presumed(Apply(cfg, s, l))
  {
    hide RewriteEnvelopeId, IsEventFrame, StampAll, RecordIds, RecordStamps;
  }

  lemma StepStaysDeaf(cfg: Config, s: State, l: Label)
    requires Enabled(cfg, s, l)
    ensures Deaf(s) ==> Deaf(Apply(cfg, s, l))
  {
    hide RewriteEnvelopeId, IsEventFrame, StampAll, RecordIds, RecordStamps;
  }

  lemma {:induction false} RunStaysSilent(cfg: Config, s: State, ls: seq<Label>)
    requires Inv(cfg, s) && IsRun(cfg, s, ls)
    ensures var s' := After(cfg, s, ls);
            && Inv(cfg, s') && s.conns.Keys <= s'.conns.Keys && (Deaf(s) ==> Deaf(s'))
            && (s'.conns.Keys == s.conns.Keys && Presumed(s) ==> Presumed(s'))
    decreases |ls|
  {
    hide Enabled, Apply, Inv, Presumed, Deaf;
    if ls != [] {
      StepStaysSilent(cfg, s, ls[0]);
      StepKeepsInv(cfg, s, ls[0]);
      RunStaysSilent(cfg, Apply(cfg, s, ls[0]), ls[1..]);
    }
  }

  lemma SilentForGood(cfg: Config, s: State, ls: seq<Label>, l: Label)
    requires Inv(cfg, s) && (Presumed(s) || Deaf(s))
    ensures !ResumesAfter(cfg, s, ls, l)
  {
    hide Apply, Inv;
    if ResumesAfter(cfg, s, ls, l) {
      RunStaysSilent(cfg, s, ls);
    }
  }

  // ---- Bringing the reader back to its loop

  lemma ReaderStands(cfg: Config, s: State)
    requires Inv(cfg, s) && s.core.reader.started
    ensures Reader in s.threads.pcs
    ensures var pc := s.threads.pcs[Reader];
            || pc.Ready? || pc.Noting?
            || (&& pc.Writing? && pc.purpose.ForLive? && pc.conn in s.conns
                && (pc.phase != Waiting <==> s.threads.lock == Some(Reader)))
  {
    hide LogInv, FlowInv, ContentInv;
  }

  /** The reader's delivery, if it is at one, runs to its note. */
  lemma ReaderToNote(cfg: Config, s: State) returns (ls: seq<Label>)
    requires Inv(cfg, s) && s.core.reader.started && !At(s, Reader, Ready)
    ensures IsRun(cfg, s, ls)
    ensures At(After(cfg, s, ls), Reader, Noting) && SameSession(s, After(cfg, s, ls))
  {
    ReaderStands(cfg, s);
    hide Inv, IsRun, After, Enabled, Apply;
    var pc := s.threads.pcs[Reader];
    if pc.Noting? {
      ls := NoStep(cfg, s);
    } else if s.threads.lock == Some(Reader) {
      WriterCanFinish(cfg, s, Reader);
      ls := FinishWriter(cfg, s, Reader);
      WritesKeepSession(s, After(cfg, s, ls), Reader, pc.conn);
    } else {
      var free := FreeLock(cfg, s);
      var s1 := After(cfg, s, free);
      assert pc.conn in s1.conns.Keys;
      var write := WriteAll(cfg, s1, Reader);
      WritesKeepSession(s1, After(cfg, s1, write), Reader, pc.conn);
      RunsCompose(cfg, s, free, write);
      ls := free + write;
    }
  }

  lemma NoStep(cfg: Config, s: State) returns (ls: seq<Label>)
    ensures IsRun(cfg, s, ls) && After(cfg, s, ls) == s
  {
    ls := [];
  }

  /** The reader is started if need be and gets back to its loop. */
  lemma ReaderLoops(cfg: Config, s: State) returns (ls: seq<Label>)
    requires Inv(cfg, s) && !s.core.reader.closed
    ensures IsRun(cfg, s, ls)
    ensures var s' := After(cfg, s, ls);
            && At(s', Reader, Ready) && s'.core.link == s.core.link && s'.conns.Keys == s.conns.Keys
            && !s'.core.reader.closed
  {
    hide Inv;
    if !s.core.reader.started {
      FirstStep(cfg, s, LEnsureStarted(""), []);
      ls := [LEnsureStarted("")] + [];
    } else if At(s, Reader, Ready) {
      ls := [];
    } else {
      var note := ReaderToNote(cfg, s);
      var s1 := After(cfg, s, note);
      FirstStep(cfg, s1, LNote(Reader), []);
      hide IsRun, After;
      RunsCompose(cfg, s, note, [LNote(Reader)] + []);
      ls := note + ([LNote(Reader)] + []);
    }
  }

  /** The reader is waiting for a frame, or gets to wait for one. */
  lemma ReaderReads(cfg: Config, s: State) returns (ls: seq<Label>)
    requires Inv(cfg, s) && !Deaf(s)
    ensures IsRun(cfg, s, ls)
    ensures var s' := After(cfg, s, ls);
            && At(s', Reader, Ready) && s'.reading && s'.core.link == s.core.link
            && s'.conns.Keys == s.conns.Keys
  {
    assert s.reading ==> At(s, Reader, Ready);
    hide Inv;
    if s.reading {
      ls := [];
    } else {
      var loop := ReaderLoops(cfg, s);
      var s1 := After(cfg, s, loop);
      if s1.reading {
        ls := loop;
      } else {
        FirstStep(cfg, s1, LRead, []);
        hide IsRun, After;
        RunsCompose(cfg, s, loop, [LRead] + []);
        ls := loop + ([LRead] + []);
      }
    }
  }

  /** A resume call that is running may fail. */
  lemma ResumeFails(cfg: Config, s: State) returns (ls: seq<Label>)
    requires s.core.link.sink.None? && !Presumed(s)
    ensures IsRun(cfg, s, ls)
    ensures var s' := After(cfg, s, ls);
            && NeedsResume(s'.core.link) && s'.conns == s.conns && s'.core.reader == s.core.reader
            && s'.reading == s.reading
  {
    if s.core.link.resuming {
      FirstStep(cfg, s, LResumeReturns(false), []);
      ls := [LResumeReturns(false)] + [];
    } else {
      ls := [];
    }
  }

  lemma ResumeComes(cfg: Config, s: State) returns (ls: seq<Label>, l: Label)
    requires Inv(cfg, s) && s.core.link.sink.None? && !Presumed(s) && !Deaf(s)
    ensures ResumesAfter(cfg, s, ls, l)
  {
    hide Inv, IsRun, After, Apply;
    var ls1 := ResumeFails(cfg, s);
    RunKeepsInv(cfg, s, ls1);
    var s1 := After(cfg, s, ls1);
    var ls2 := ReaderReads(cfg, s1);
    var s2 := After(cfg, s1, ls2);
    RunsCompose(cfg, s, ls1, ls2);
    ls := ls1 + ls2;
    l := AnEvent(cfg, s2);
  }

  /** There is always an event that could arrive. */
  lemma AnEvent(cfg: Config, s: State) returns (l: Label)
    requires At(s, Reader, Ready) && s.reading
    ensures l.LEvent? && Enabled(cfg, s, l)
  {
    var raw := Text(Obj(map["type" := Str(TYPE_EVENTS_API)]));
    assert DecodeEnvelope(raw).value.kind == TYPE_EVENTS_API;
    var ids := EnoughIds(s.log, 1);
    l := LEvent(raw, ids[0]);
  }

  /** An absent actor may still get a resume started before it connects by itself, if and only if
      the session can still hear an event and does not presume the actor resumed. In particular a resume
      that succeeds for an actor that then fails to connect silences all later events. */
  lemma ResumeMayStartIff(cfg: Config, s: State)
    requires Reachable(cfg, s) && s.core.link.sink.None?
    ensures (exists ls, l :: ResumesAfter(cfg, s, ls, l)) <==>
            && !(s.core.link.resuming && s.resumes.running == 0)
            && (s.reading || !s.core.reader.closed)
  {
    hide Reachable, Inv, ResumesAfter;
    ReachableInv(cfg, s);
    if Presumed(s) || Deaf(s) {
      forall ls, l ensures !ResumesAfter(cfg, s, ls, l) {
        SilentForGood(cfg, s, ls, l);
      }
    } else {
      var ls, l := ResumeComes(cfg, s);
    }
  }

  /** The silent state is reachable with an event waiting. */
  lemma StrandedByResume(cfg: Config, raw: Raw)
    requires IsEventFrame(raw)
    ensures exists s :: Reachable(cfg, s) && Presumed(s) && s.core.mail.buffer != []
  {
    hide Reachable, IsEventFrame, RewriteEnvelopeId;
    InitialReachable(cfg);
    ReachableStep(cfg, INITIAL, LEnsureStarted(""));
    var s1 := Apply(cfg, INITIAL, LEnsureStarted(""));
    ReachableStep(cfg, s1, LRead);
    var s2 := Apply(cfg, s1, LRead);
    ReachableStep(cfg, s2, LEvent(raw, "a"));
    var s3 := Apply(cfg, s2, LEvent(raw, "a"));
    ReachableStep(cfg, s3, LResumeReturns(true));
    var s := Apply(cfg, s3, LResumeReturns(true));
    assert s.core.mail.buffer == [PendingEvent(0, raw)];
  }
}
