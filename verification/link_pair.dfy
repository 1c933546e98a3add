/** The link-pair protocol: sharp_panel_enable and sharp_panel_disable,
    which address the two DSI links of the panel in lockstep. */
module LinkPair {
  import opened Trace
  import opened Sequencer

  /** In enable and disable only the DCS writes can fail; each is
      followed by `if (err < 0) return err;`. */
  predicate IsWrite(e: Event)
  {
    e.Dcs?
  }

  /** One step of an enable or disable body: the same DCS command sent to
      link1 and then to link2, or a sleep. */
  datatype Line = Both(cmd: DcsCommand, payload: seq<byte>) | Pause(ms: nat)

  function LineCalls(l: Line): seq<Event>
  {
    match l
    case Both(c, p) => [Dcs(Link1, c, p), Dcs(Link2, c, p)]
    case Pause(ms) => [Wait(ms)]
  }

  /** The calls a body made of `b` makes when nothing fails. */
  function Expand(b: seq<Line>): seq<Event>
    decreases |b|
  {
    if |b| == 0 then [] else LineCalls(b[0]) + Expand(b[1..])
  }

  /** Whatever its lines, such a body sends each write to link1 and then
      the same write to link2. */
  lemma {:induction false} ExpandMirrored(b: seq<Line>)
    ensures Mirrored(LinkWrites(Expand(b)))
    decreases |b|
  {
    if |b| > 0 {
      ExpandMirrored(b[1..]);
      var w := LinkWrites(Expand(b[1..]));
      KeepAppend(LineCalls(b[0]), Expand(b[1..]), DcsOf);
      match b[0]
      case Both(c, p) =>
        var pair := [Dcs(Link1, c, p), Dcs(Link2, c, p)];
        assert LinkWrites(pair) == pair;
        assert (pair + w)[2..] == w;
      case Pause(ms) =>
        assert LinkWrites([Wait(ms)]) == [];
        assert [] + w == w;
    }
  }

  /** The calls sharp_panel_disable makes when nothing fails. */
  const DisableCalls: seq<Event> :=
    [ Dcs(Link1, SetDisplayOff, []), Dcs(Link2, SetDisplayOff, []),
      Wait(100),
      Dcs(Link1, EnterSleepMode, []), Dcs(Link2, EnterSleepMode, []),
      Wait(150) ]

  /** The lines of sharp_panel_disable. */
  const DisableLines: seq<Line> :=
    [ Both(SetDisplayOff, []), Pause(100), Both(EnterSleepMode, []), Pause(150) ]

  lemma DisableCallsLines()
    ensures DisableCalls == Expand(DisableLines)
  {
  }

  /** sharp_panel_disable: display off on both links, 100 ms, sleep on
      both links, 150 ms. It returns 0 exactly when all four DCS writes
      succeed; otherwise it returns the negative result of the first that
      fails, and its calls are a prefix of DisableCalls that ends there. */
  function Disable(o: Oracle): (r: Outcome)
    ensures r.code <= 0
    ensures r.code == 0 <==> AllSucceed(o, DisableCalls, IsWrite)
    ensures r.code == 0 ==> r.trace == DisableCalls
    ensures |r.trace| <= |DisableCalls| && r.trace == DisableCalls[..|r.trace|]
    ensures r.code != 0 ==>
      0 < |r.trace| && r.trace[|r.trace| - 1].Dcs? && r.code == o(r.trace[|r.trace| - 1]) < 0 &&
      AllSucceed(o, r.trace[..|r.trace| - 1], IsWrite)
  {
    ScriptRun(o, DisableCalls, IsWrite);
    Run(o, Script(DisableCalls, IsWrite))
  }

  /** The write of `cmd` on either link. */
  predicate Sends(e: Event, cmd: DcsCommand)
  {
    e.Dcs? && e.cmd == cmd
  }

  /** Whatever the links answer, disable never puts a link to sleep before
      both display-off commands have been sent, and each command goes to
      link1 and then to link2. */
  lemma DisableOrder(o: Oracle)
    ensures var t := Disable(o).trace;
      && (forall i, j ::
            0 <= i < |t| && 0 <= j < |t| && Sends(t[i], SetDisplayOff) && Sends(t[j], EnterSleepMode)
            ==> i < j)
      && (forall j :: 0 <= j < |t| && Sends(t[j], EnterSleepMode) ==>
            Dcs(Link1, SetDisplayOff, []) in t[..j] && Dcs(Link2, SetDisplayOff, []) in t[..j])
      && Mirrored(LinkWrites(t))
  {
    DisablePrefixOrder(Disable(o).trace);
  }

  lemma DisablePrefixOrder(t: seq<Event>)
    requires |t| <= |DisableCalls| && t == DisableCalls[..|t|]
    ensures Mirrored(LinkWrites(t))
    ensures forall i, j ::
      0 <= i < |t| && 0 <= j < |t| && Sends(t[i], SetDisplayOff) && Sends(t[j], EnterSleepMode)
      ==> i < j
    ensures forall j :: 0 <= j < |t| && Sends(t[j], EnterSleepMode) ==>
      Dcs(Link1, SetDisplayOff, []) in t[..j] && Dcs(Link2, SetDisplayOff, []) in t[..j]
  {
    DisableCallsMirrored();
    MirroredPrefix(DisableCalls, |t|);
    DisablePhases(t);
  }

  lemma DisableCallsMirrored()
    ensures Mirrored(LinkWrites(DisableCalls))
  {
    DisableCallsLines();
    ExpandMirrored(DisableLines);
  }

  /** In any prefix of DisableCalls, the display-off writes come first and
      both precede any sleep write. */
  lemma DisablePhases(t: seq<Event>)
    requires |t| <= |DisableCalls| && t == DisableCalls[..|t|]
    ensures forall i, j ::
      0 <= i < |t| && 0 <= j < |t| && Sends(t[i], SetDisplayOff) && Sends(t[j], EnterSleepMode)
      ==> i < j
    ensures forall j :: 0 <= j < |t| && Sends(t[j], EnterSleepMode) ==>
      Dcs(Link1, SetDisplayOff, []) in t[..j] && Dcs(Link2, SetDisplayOff, []) in t[..j]
  {
    assert forall i :: 0 <= i < |t| ==> t[i] == DisableCalls[i];
    assert forall i :: 0 <= i < |DisableCalls| ==>
      (Sends(DisableCalls[i], SetDisplayOff) ==> i < 2) && (Sends(DisableCalls[i], EnterSleepMode) ==> i >= 3);
    forall j | 0 <= j < |t| && Sends(t[j], EnterSleepMode)
      ensures Dcs(Link1, SetDisplayOff, []) in t[..j] && Dcs(Link2, SetDisplayOff, []) in t[..j]
    {
      assert t[..j][0] == DisableCalls[0] && t[..j][1] == DisableCalls[1];
    }
  }

  /** A successful disable waits 100 ms between the display-off and the
      sleep commands and 150 ms after them: 250 ms in total. */
  lemma DisableWaits(o: Oracle)
    requires AllSucceed(o, DisableCalls, IsWrite)
    ensures Waits(Disable(o).trace) == [100, 150]
    ensures TotalWait(Disable(o).trace) == 250
  {
    assert Waits(DisableCalls) == [100, 150];
    assert Sum([100, 150]) == 250;
  }

  /** sharp_panel_enable as written: it returns 0 before making any call. */
  function Enable(o: Oracle): (r: Outcome)
    ensures r.code == 0 && r.trace == []
  {
    Outcome(0, [])
  }

  /** The calls of the body of sharp_panel_enable that follows its early
      return (lines never reached), when nothing fails. */
  const EnableBodyCalls: seq<Event> :=
    [ Dcs(Link1, ExitSleepMode, []), Dcs(Link2, ExitSleepMode, []),
      Wait(120),
      Dcs(Link1, SetDisplayBrightness, [0xff]), Dcs(Link2, SetDisplayBrightness, [0xff]),
      Dcs(Link1, WritePowerSave, [0x01]), Dcs(Link2, WritePowerSave, [0x01]),
      Dcs(Link1, WriteControlDisplay, [0x2C]), Dcs(Link2, WriteControlDisplay, [0x2C]),
      Dcs(Link1, SetDisplayOn, []), Dcs(Link2, SetDisplayOn, []) ]

  /** The lines of that body. */
  const EnableBodyLines: seq<Line> :=
    [ Both(ExitSleepMode, []), Pause(120),
      Both(SetDisplayBrightness, [0xff]), Both(WritePowerSave, [0x01]),
      Both(WriteControlDisplay, [0x2C]), Both(SetDisplayOn, []) ]

  lemma EnableBodyCallsLines()
    ensures EnableBodyCalls == Expand(EnableBodyLines)
  {
  }

  /** The unreachable body of sharp_panel_enable, as if the early return
      were removed. Not used by Enable. */
  function EnableBody(o: Oracle): (r: Outcome)
    ensures r.code <= 0
    ensures r.code == 0 <==> AllSucceed(o, EnableBodyCalls, IsWrite)
    ensures r.code == 0 ==> r.trace == EnableBodyCalls
    ensures |r.trace| <= |EnableBodyCalls| && r.trace == EnableBodyCalls[..|r.trace|]
    ensures r.code != 0 ==>
      0 < |r.trace| && r.trace[|r.trace| - 1].Dcs? && r.code == o(r.trace[|r.trace| - 1]) < 0 &&
      AllSucceed(o, r.trace[..|r.trace| - 1], IsWrite)
  {
    ScriptRun(o, EnableBodyCalls, IsWrite);
    Run(o, Script(EnableBodyCalls, IsWrite))
  }

  /** Whatever the links answer, every write of the enable body goes to
      link1 and then to link2 with the same command and payload. */
  lemma EnableBodyMirrored(o: Oracle)
    ensures Mirrored(LinkWrites(EnableBody(o).trace))
  {
    EnableBodyCallsLines();
    ExpandMirrored(EnableBodyLines);
    MirroredPrefix(EnableBodyCalls, |EnableBody(o).trace|);
  }

  /** If link2 fails to leave sleep mode, the enable body stops there:
      no brightness, power-save, control or display-on write is sent. */
  lemma EnableBodyStopsOnLink2Wake(o: Oracle)
    requires o(Dcs(Link1, ExitSleepMode, [])) >= 0
    requires o(Dcs(Link2, ExitSleepMode, [])) < 0
    ensures EnableBody(o) ==
      Outcome(o(Dcs(Link2, ExitSleepMode, [])), [Dcs(Link1, ExitSleepMode, []), Dcs(Link2, ExitSleepMode, [])])
  {
    WakePrefix(EnableBodyCalls);
    ScriptStopsAt(o, EnableBodyCalls, IsWrite, 1);
  }

  lemma WakePrefix(t: seq<Event>)
    requires t == EnableBodyCalls
    ensures t[..1] == [Dcs(Link1, ExitSleepMode, [])]
    ensures t[..2] == [Dcs(Link1, ExitSleepMode, []), Dcs(Link2, ExitSleepMode, [])]
    ensures t[1] == Dcs(Link2, ExitSleepMode, [])
  {
  }
}
