/** One event of the effect gate: frames, channel ends and the dispatch over all events. */
module GateSteps {
  import opened Vocabulary
  import opened Journal
  import opened GateModel
  import opened GateInvariant
  import opened GateEvents

  /** What an event but GATE_RESTART does: it keeps the invariant and the evidence and reverts nothing; a forward needs
      an ACTIVE generation with an open channel, no drain and a live execution, and is accounted for exactly once; a
      BIND record is one that passed every check. */
  ghost predicate Stepped(c: Config, g: Gate, o: Outcome) {
    o.Handled? ==>
      && Sound(o.gate) && Onward(g, o.gate) && (Traced(g) ==> Traced(o.gate)) && WritesIn(o.gate) == WritesIn(g)
      && FileWritesIn(o.gate) == FileWritesIn(g)
      && BindsStep(c, g, o.gate)
      && (if o.output.Forward? then
            && g.state == Active && g.channel == Opened && !g.drainPending && g.bound.Some? && !g.expired
            && ForwardedIn(o.gate) == ForwardedIn(g) + [(g.bound.value.executionId, o.output.actionId)]
          else ForwardedIn(o.gate) == ForwardedIn(g))
  }

  lemma KeptCarries(c: Config, g: Gate, h: Gate)
    requires Kept(g, h)
    ensures Carries(g, h) && BindsStep(c, g, h)
  {
    hide Sound, Onward, Traced, ForwardedIn, WritesIn, BindsIn;
  }

  lemma CarriesOn(c: Config, f: Gate, g: Gate, h: Gate)
    requires Carries(f, g) && BindsStep(c, f, g) && Kept(g, h)
    ensures Carries(f, h) && BindsStep(c, f, h)
  {
    hide Sound, Onward, Traced, ForwardedIn, WritesIn, BindsIn, BindCheck, BindRecord;
    OnwardComposes(f, g, h);
  }

  lemma PerformKept(c: Config, w: World, g: Gate, request: Request, observed: bool)
    requires Sound(g)
    ensures var h := Perform(c, w, g, request, observed).0; Carries(g, h) && BindsStep(c, g, h)
  {
    hide Kept, Carries, BindsStep, FatalClose, BindOn, ArmOn, OutcomeOn, CloseOn;
    var h := Perform(c, w, g, request, observed).0;
    if request.AskBind? && request.bind.peerQualificationDigest == c.peerQualificationDigest {
      BindKept(c, w, g, request.bind, observed);
    } else {
      match request {
        case AskStatus => KeptRefl(g);
        case AskBind(p) => FatalKept(w, g, PeerQualificationMismatch);
        case AskArm(p) => ArmKept(c, w, g, p);
        case AskOutcome(executionId, id) => OutcomeKept(w, g, executionId, id);
        case AskClose(reason) => CloseKept(w, g, reason);
      }
      KeptCarries(c, g, h);
    }
  }

  /** Opening the channel changes nothing a BIND checks. */
  lemma OpeningBinds(c: Config, g: Gate, open: Gate, h: Gate)
    requires open == g.(channel := open.channel, challenge := open.challenge)
    requires Kept(g, open) && Carries(open, h) && BindsStep(c, open, h)
    ensures Carries(g, h) && BindsStep(c, g, h)
  {
    hide Sound, Onward, Traced, ForwardedIn, WritesIn, BindsIn, BindRecord;
    OnwardComposes(g, open, h);
    if BindsIn(h) != BindsIn(open) {
      var p, observed :| BindCheck(c, open, p, observed).None? && p.runNonce in c.runs
        && BindsIn(h) == BindsIn(open) + [BindRecord(c, p)];
      assert BindCheck(c, g, p, observed).None?;
    }
  }

  lemma SoundOfCarries(g: Gate, h: Gate)
    requires Carries(g, h)
    ensures Sound(h)
  {
  }

  /** A frame whose envelope passed. */
  lemma CheckedKept(c: Config, w: World, g: Gate, f: Frame, observed: bool, fits: bool)
    requires Sound(g) && g.channel != Shut
    ensures var (h, output) := CheckedFrame(c, w, g, f, observed, fits);
            Carries(g, h) && BindsStep(c, g, h) && !output.Forward?
  {
    hide Kept, Carries, BindsStep, FatalClose, Perform;
    var open := if g.channel == Unopened then g.(channel := Opened, challenge := Some(f.challenge)) else g;
    if g.channel == Unopened { ReshutKept(g, Opened, Some(f.challenge), g.drainPending, g.nextSequence, g.lastDigest); }
    else { KeptRefl(g); }
    KeptSound(g, open);
    KeptCarries(c, g, open);
    if !f.payload.Ask? || OperationOf(f.payload.request) != f.operation {
      FatalKept(w, open, InvalidFrame(F00));
      CarriesOn(c, g, open, FatalClose(w, open, InvalidFrame(F00)));
    } else {
      var (done, response) := Perform(c, w, open, f.payload.request, observed);
      PerformKept(c, w, open, f.payload.request, observed);
      OpeningBinds(c, g, open, done);
      SoundOfCarries(g, done);
      FatalKept(w, done, ResponseOutOfBounds);
      CarriesOn(c, g, done, FatalClose(w, done, ResponseOutOfBounds));
      if response.Some? {
        var reply := ResponseFrame(c, f.challenge, f, response.value);
        ReshutKept(done, done.channel, done.challenge, done.drainPending, f.sequence + 2, c.digest(reply));
        CarriesOn(c, g, done, done.(nextSequence := f.sequence + 2, lastDigest := c.digest(reply)));
      }
    }
  }

  lemma FrameKept(c: Config, w: World, g: Gate, input: FrameInput, observed: bool, fits: bool)
    requires Sound(g)
    ensures var (h, output) := FrameOn(c, w, g, input, observed, fits);
            Carries(g, h) && BindsStep(c, g, h) && !output.Forward?
  {
    hide Kept, Carries, BindsStep, FatalClose, CheckedFrame, EnvelopeCheck;
    var h := FrameOn(c, w, g, input, observed, fits).0;
    if g.channel != Shut && input.Decoded? && EnvelopeCheck(c, g, input.frame).None? {
      CheckedKept(c, w, g, input.frame, observed, fits);
    } else {
      KeptRefl(g);
      if g.channel != Shut {
        FatalKept(w, g, if input.Malformed? then InvalidFrame(input.code) else EnvelopeCheck(c, g, input.frame).value);
      }
      KeptCarries(c, g, h);
    }
  }

  lemma LoseChannelKept(w: World, g: Gate)
    requires Sound(g)
    ensures Kept(g, LoseChannel(w, g).0) && !LoseChannel(w, g).1.Forward?
  {
    hide Kept, FatalClose, Journalled, IsOrderly;
    var shut := g.(channel := Shut);
    KeptRefl(g);
    ReshutKept(g, Shut, g.challenge, g.drainPending, g.nextSequence, g.lastDigest);
    KeptSound(g, shut);
    var end := if g.channel == Unopened then BeforeFirstFrame else Orderly;
    JournalledKept(w, shut, Record.ChannelEnded(end));
    KeptComposes(g, shut, Journalled(w, shut, Record.ChannelEnded(end)));
    FatalKept(w, g, PeerLost);
  }

  lemma QueuedKept(g: Gate, conn: string)
    requires Sound(g)
    ensures Kept(g, g.(backlog := g.backlog + [conn]))
  {
    hide SoundOn;
    var s := g.stores.entries;
    SameCore(g, g.(backlog := g.backlog + [conn]), Replay(s), Derive(s), AccountOf(s));
  }

  /** Every event but a frame, a request and a restart. */
  lemma DispatchKept(c: Config, w: World, g: Gate, event: Event)
    requires Sound(g) && !event.GateRestart? && !event.RequestEvent? && !event.FrameEvent?
    ensures var o := Dispatch(c, w, g, event); o.Handled? ==> Kept(g, o.gate) && !o.output.Forward?
  {
    hide Kept, FatalClose, FrameOn, RequestOn, UpstreamOn, TimeoutOn, DrainOn, ExpireOn, LoseChannel, RestartWith;
    KeptRefl(g);
    match event
    case Backlog(conn) => QueuedKept(g, conn);
    case Accept(conn) => if conn in g.backlog { AcceptKept(g, conn); }
    case Disconnect(conn) => if DisconnectOn(g, conn).Handled? { DisconnectKept(g, conn); }
    case Responded(conn, response) => UpstreamKept(w, g, conn, Some(response));
    case UpstreamLost(conn) => UpstreamKept(w, g, conn, None);
    case UpstreamTimeout(conn) => TimeoutKept(w, g, conn);
    case DrainRequest => DrainKept(w, g);
    case Expire => ExpireKept(w, g);
    case ChannelLost => LoseChannelKept(w, g);
    case SecondChannel =>
    case PeerHasChanged => FatalKept(w, g, PeerChanged);
    case LateAnswer => FatalKept(w, g, AnswerLate);
  }

  lemma DispatchesRequest(c: Config, w: World, g: Gate, event: Event)
    requires event.RequestEvent?
    ensures Dispatch(c, w, g, event) == RequestOn(c, w, g, event.conn, event.certificate, event.head, event.bodyDigest)
  {
    hide RequestOn;
  }

  lemma DispatchesFrame(c: Config, w: World, g: Gate, event: Event)
    requires event.FrameEvent?
    ensures var (h, output) := FrameOn(c, w, g, event.input, event.observed, event.fits);
            Dispatch(c, w, g, event) == Handled(h, output, None)
  {
    hide FrameOn;
  }

  lemma DispatchStepped(c: Config, w: World, g: Gate, event: Event)
    requires Sound(g) && !event.GateRestart?
    ensures Stepped(c, g, Dispatch(c, w, g, event))
  {
    hide Sound, Onward, Traced, ForwardedIn, WritesIn, BindsIn, Dispatch, BindCheck, BindRecord;
    if event.RequestEvent? {
      DispatchesRequest(c, w, g, event);
      if event.conn in g.connections {
        RequestKept(c, w, g, event.conn, event.certificate, event.head, event.bodyDigest);
      }
    } else if event.FrameEvent? {
      DispatchesFrame(c, w, g, event);
      FrameKept(c, w, g, event.input, event.observed, event.fits);
    } else {
      DispatchKept(c, w, g, event);
    }
  }

  lemma DispatchesDrain(c: Config, w: World, g: Gate)
    ensures Dispatch(c, w, g, DrainRequest).Handled? && Dispatch(c, w, g, DrainRequest).gate == DrainOn(w, g).0
  {
    hide DrainOn;
  }

  /** One handled event: what Stepped says, and a drain request always ends ACTIVE. */
  lemma HandleStepped(c: Config, w: World, g: Gate, event: Event)
    requires Sound(g) && !event.GateRestart?
    ensures Stepped(c, g, Handle(c, w, g, event))
    ensures event.DrainRequest? ==> Handle(c, w, g, event).Handled? && Handle(c, w, g, event).gate.state != Active
  {
    hide Sound, Onward, Traced, ForwardedIn, WritesIn, BindsIn, Dispatch, SettleDrain, BindCheck, BindRecord;
    DispatchStepped(c, w, g, event);
    var o := Dispatch(c, w, g, event);
    if o.Handled? {
      SettleDrainKept(w, o.gate);
      OnwardComposes(g, o.gate, SettleDrain(w, o.gate).0);
    }
    if event.DrainRequest? {
      DispatchesDrain(c, w, g);
      DrainKept(w, g);
    }
  }
}
