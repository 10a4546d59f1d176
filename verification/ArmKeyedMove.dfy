/** A concrete run, event by event: the interlock arms (so a closed relay is reachable), and a whole
    Ultrabeam move that falls between two passes leaves it closed under drive. */
module ArmKeyedMove {
  import opened Options
  import opened ArmBands
  import opened ArmModel
  import opened ArmClock

  /** A run that arms the PA and then, with the radio keyed, gets the command, the motion and its stop
      all between two passes. */
  function KeyedMoveEvent(i: nat): Timed {
    match i
    case 0 => At(0, StatusMsg(RadioFeed, true))
    case 1 => At(0, StatusMsg(SwitchFeed, true))
    case 2 => At(0, StatusMsg(CtrlFeed, true))
    case 3 => At(0, StatusMsg(PaFeed, true))
    case 4 => At(0, RadioState(Some(OnTwenty(true, 1))))
    case 5 => At(0, RadioState(Some(OnTwenty(true, 2))))
    case 6 => At(0, CtrlState(Some(BeamAt(false))))
    case 7 => At(0, SwitchState(Some(SwitchDoc(Some(Port(4)), Some(true)))))
    case 8 => At(0, PaState(Some(PaDoc(Some(true), Some(NoFault), true))))
    case 9 => At(0, Pass(true, false, false))
    case 10 => At(4000, Pass(true, true, true))
    case 11 => At(4010, RadioState(Some(OnTwenty(false, 3))))
    case 12 => At(4020, CtrlCmd(Some(Direction)))
    case 13 => At(4030, CtrlState(Some(BeamAt(true))))
    case 14 => At(4040, CtrlState(Some(BeamAt(false))))
    case _ => At(4050, Pass(true, true, true))
  }

  function OnTwenty(rx: bool, ts: nat): RadioDoc { RadioDoc(Some(true), Some(false), Some(rx), Some(14200000), Some(ts)) }
  function BeamAt(moving: bool): CtrlDoc { CtrlDoc(Some(true), Some(moving), Some(14200000), Some(""), Some(false)) }

  function KeyedMoveRun(): (run: seq<Timed>)
    ensures |run| == 16
  {
    seq(16, i requires 0 <= i < 16 => KeyedMoveEvent(i))
  }

  lemma {:induction false} Derives20m(prev: Band)
    ensures BandForFreq(14200000, prev) == Metres(20)
  {
    var r := RowHolding(BAND_EDGES, 14200000, 0);
    assert Contains(BAND_EDGES[5], 14200000);
    assert r == 5 by {
      assert r <= 5;
      assert !Contains(BAND_EDGES[0], 14200000) && !Contains(BAND_EDGES[1], 14200000) && !Contains(BAND_EDGES[2], 14200000);
      assert !Contains(BAND_EDGES[3], 14200000) && !Contains(BAND_EDGES[4], 14200000);
    }
  }

  /** The feeds when everything is up on 20m with the beam in circuit. */
  function UpFeeds(rx: bool, ts: nat, freshMs: nat, moving: bool, mv: Motion): Feeds {
    Feeds(Radio(true, true, true, false, rx, 14200000, Metres(20), Some(ts), 2, true, freshMs),
          AntSwitch(true, true, Port(4), true), AntCtrl(true, true, true, true, moving, 14200000, "", false),
          AntSelect(false, Unreported), Pa(true, true, true, NoFault, true), Tuner(false, false, false),
          BandMemory(Metres(20), false, 0), mv)
  }

  const ARMED: Drive := Drive(true, true, false, 0, 0, 0, 0, 1, false, 0, [true])

  lemma UnrollRun(i: nat)
    requires i < 16
    ensures After(Wrapping, KeyedMoveRun(), i + 1) == Step(Wrapping, After(Wrapping, KeyedMoveRun(), i), KeyedMoveEvent(i))
  {}

  lemma {:induction false} RunComesUp()
    ensures After(Wrapping, KeyedMoveRun(), 9)
         == State(UpFeeds(true, 2, 0, false, Motion(true, 0, 3000, false, false, 0, true, false)), INIT_DRIVE)
  {
    hide BandForFreq, After, KeyedMoveRun;
    Derives20m(NoBand);
    Derives20m(Metres(20));
    RunGoesOnline();
    UnrollRun(4); UnrollRun(5); UnrollRun(6); UnrollRun(7); UnrollRun(8);
  }

  /** The first four feeds report themselves online. */
  lemma {:induction false} RunGoesOnline()
    ensures After(Wrapping, KeyedMoveRun(), 4)
         == State(INIT_FEEDS.(radio := INIT_FEEDS.radio.(statusOnline := true), antSw := INIT_FEEDS.antSw.(statusOnline := true),
                              ub := INIT_FEEDS.ub.(statusOnline := true), pa := INIT_FEEDS.pa.(statusOnline := true)), INIT_DRIVE)
  {
    hide After, KeyedMoveRun;
    assert After(Wrapping, KeyedMoveRun(), 0) == INIT by { FirstState(); }
    UnrollRun(0); UnrollRun(1); UnrollRun(2); UnrollRun(3);
  }

  lemma FirstState()
    ensures After(Wrapping, KeyedMoveRun(), 0) == INIT
  {}

  /** All gates but the settle window clear in RX: the first pass starts the dwell. */
  lemma DwellStarts(s: State)
    requires s == State(UpFeeds(true, 2, 0, false, Motion(true, 0, 3000, false, false, 0, true, false)), INIT_DRIVE)
    ensures Step(Wrapping, s, At(0, Pass(true, false, false))) == State(s.f, INIT_DRIVE.(closeOkValid := true))
  {}

  lemma Arms(s: State)
    requires s == State(UpFeeds(true, 2, 0, false, Motion(true, 0, 3000, false, false, 0, true, false)),
                        INIT_DRIVE.(closeOkValid := true))
    ensures Step(Wrapping, s, At(4000, Pass(true, true, true)))
         == State(UpFeeds(true, 2, 0, false, Motion(false, 0, 3000, false, false, 0, true, false)), ARMED.(closeOkValid := true))
  {}

  lemma {:induction false} RunArms()
    ensures After(Wrapping, KeyedMoveRun(), 11)
         == State(UpFeeds(true, 2, 0, false, Motion(false, 0, 3000, false, false, 0, true, false)), ARMED.(closeOkValid := true))
  {
    hide After, KeyedMoveRun, Step, UpFeeds;
    RunComesUp();
    UnrollRun(9);
    DwellStarts(After(Wrapping, KeyedMoveRun(), 9));
    UnrollRun(10);
    Arms(After(Wrapping, KeyedMoveRun(), 10));
  }

  /** Keyed, commanded, moving, stopped: only the short stop-settle window is left. */
  lemma {:induction false} RunMoves()
    ensures After(Wrapping, KeyedMoveRun(), 12).f.mv == Motion(false, 0, 3000, false, false, 0, true, false)
    ensures After(Wrapping, KeyedMoveRun(), 15)
         == State(UpFeeds(false, 3, 4010, false, Motion(true, 4040, 250, true, false, 4020, true, false)), ARMED)
  {
    hide After, KeyedMoveRun;
    RunCommanded();
    UnrollRun(13); UnrollRun(14);
  }

  lemma {:induction false} RunCommanded()
    ensures After(Wrapping, KeyedMoveRun(), 12).f.mv == Motion(false, 0, 3000, false, false, 0, true, false)
    ensures After(Wrapping, KeyedMoveRun(), 13)
         == State(UpFeeds(false, 3, 4010, false, Motion(true, 4020, 3000, false, true, 4020, false, false)), ARMED)
  {
    hide BandForFreq, After, KeyedMoveRun;
    Derives20m(Metres(20));
    RunArms();
    UnrollRun(11); UnrollRun(12);
  }

  lemma KeyedPassStaysClosed(s: State)
    requires s == State(UpFeeds(false, 3, 4010, false, Motion(true, 4040, 250, true, false, 4020, true, false)), ARMED)
    ensures Step(Wrapping, s, At(4050, Pass(true, true, true))).d.cmd
    ensures SettleOpen(Wrapping, s.f.mv, Low(4050))
  {}

  /** "Opened on the next pass" does not hold for every run: the exception left open above is real. The
      PA is armed and keyed, a motion command arrives (event 12), and the very next pass (event 15), with
      the settle window still open, leaves the relay closed: the move's stop was already reported. */
  lemma {:induction false} WholeMoveBetweenPassesKeepsClosed()
    ensures KeyedMoveRun()[12].ev == CtrlCmd(Some(Direction)) && KeyedMoveRun()[15].ev.Pass?
    ensures !KeyedMoveRun()[13].ev.Pass? && !KeyedMoveRun()[14].ev.Pass?
    ensures After(Wrapping, KeyedMoveRun(), 15).d.cmd && After(Wrapping, KeyedMoveRun(), 16).d.cmd
    ensures SettleOpen(Wrapping, After(Wrapping, KeyedMoveRun(), 15).f.mv, Low(KeyedMoveRun()[15].at))
  {
    hide After, Step, UpFeeds;
    RunMoves();
    UnrollRun(15);
    KeyedPassStaysClosed(After(Wrapping, KeyedMoveRun(), 15));
  }
}
