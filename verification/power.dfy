/** The power sequencer: sharp_panel_reset, sharp_panel_prepare and
    sharp_panel_unprepare, each run against an oracle. */
module PowerSequence {
  import opened Trace
  import opened Sequencer

  /** The order in which prepare enables the rails. */
  const PowerOnOrder: seq<Rail> := [Vddio, Avdd, Vsp, Vsn]

  /** The order in which unprepare disables the rails. */
  const PowerOffOrder: seq<Rail> := [Avdd, Vddio, Vsp, Vsn]

  /** sharp_panel_reset: drive reset to 1, hold, drive it to 0, hold. It
      makes no call that can fail and no other call; each level is held at
      least 2 ms. */
  function ResetPulse(): (t: seq<Event>)
    ensures |t| == 4
    ensures ResetLevels(t) == [1, 0]
    ensures forall i :: 0 <= i < |t| && t[i].ResetSet? ==>
      i + 1 < |t| && t[i + 1].Wait? && t[i + 1].ms >= 2
  {
    var t := [ResetSet(1), Wait(2), ResetSet(0), Wait(2)];
    assert ResetLevels([ResetSet(1), Wait(2), ResetSet(0), Wait(2)]) == [1, 0];
    t
  }

  /** The four enables of sharp_panel_prepare with their settle times. */
  const PowerOnCalls: seq<Event> :=
    [ RegEnable(Vddio), RegEnable(Avdd), Wait(12), RegEnable(Vsp), Wait(12), RegEnable(Vsn), Wait(24) ]

  /** The calls of sharp_panel_prepare when every enable succeeds: the
      four enables with their settle times, the reset pulse, 32 ms. */
  const PrepareCalls: seq<Event> := PowerOnCalls + ResetPulse() + [Wait(32)]

  /** What a projection keeps of PrepareCalls is what it keeps of each
      of its three parts. */
  lemma PrepareCallsParts<U>(f: Event -> Option<U>)
    ensures Keep(PrepareCalls, f) == Keep(PowerOnCalls, f) + Keep(ResetPulse(), f) + Keep([Wait(32)], f)
  {
    KeepAppend(PowerOnCalls, ResetPulse(), f);
    KeepAppend(PowerOnCalls + ResetPulse(), [Wait(32)], f);
  }

  /** In prepare only the enables can fail. */
  predicate IsEnable(e: Event)
  {
    e.RegEnable?
  }

  /** sharp_panel_prepare: returns 0 exactly when all four enables
      succeed, and otherwise the negative error of the first that fails.
      Its calls are always a prefix of PrepareCalls, and all of them on
      success. */
  function Prepare(o: Oracle): (r: Outcome)
    ensures r.code <= 0
    ensures r.code == 0 <==> forall rail: Rail :: o(RegEnable(rail)) >= 0
    ensures |r.trace| <= |PrepareCalls| && r.trace == PrepareCalls[..|r.trace|]
    ensures r.code == 0 ==> r.trace == PrepareCalls
    ensures r.code != 0 ==>
      0 < |r.trace| && r.trace[|r.trace| - 1].RegEnable? && r.code == o(r.trace[|r.trace| - 1])
  {
    ScriptRun(o, PrepareCalls, IsEnable);
    PrepareEnablesAll(o);
    Run(o, Script(PrepareCalls, IsEnable))
  }

  /** The enables of PrepareCalls cover every rail. */
  lemma PrepareEnablesAll(o: Oracle)
    ensures AllSucceed(o, PrepareCalls, IsEnable) <==> forall rail: Rail :: o(RegEnable(rail)) >= 0
  {
    if AllSucceed(o, PrepareCalls, IsEnable) {
      forall rail: Rail
        ensures o(RegEnable(rail)) >= 0
      {
        var i := EnableStep(RankOf(rail));
        assert IsEnable(PrepareCalls[i]);
      }
    }
  }

  /** Position of a rail in PowerOnOrder. */
  function RankOf(rail: Rail): (k: nat)
    ensures k < 4 && PowerOnOrder[k] == rail
  {
    match rail
    case Vddio => 0
    case Avdd => 1
    case Vsp => 2
    case Vsn => 3
  }

  /** Index in PrepareCalls of the enable of PowerOnOrder[k]. */
  function EnableStep(k: nat): (p: nat)
    requires k < 4
    ensures p < |PrepareCalls| && PrepareCalls[p] == RegEnable(PowerOnOrder[k])
    ensures forall i :: 0 <= i < p && PrepareCalls[i].RegEnable? ==>
      exists j :: 0 <= j < k && PrepareCalls[i] == RegEnable(PowerOnOrder[j])
  {
    if k == 0 then 0
    else if k == 1 then
      assert PrepareCalls[0] == RegEnable(PowerOnOrder[0]);
      1
    else if k == 2 then
      assert PrepareCalls[0] == RegEnable(PowerOnOrder[0]);
      assert PrepareCalls[1] == RegEnable(PowerOnOrder[1]);
      3
    else
      assert PrepareCalls[0] == RegEnable(PowerOnOrder[0]);
      assert PrepareCalls[1] == RegEnable(PowerOnOrder[1]);
      assert PrepareCalls[3] == RegEnable(PowerOnOrder[2]);
      5
  }

  /** A successful prepare enables the four rails once each, in the order
      vddio, avdd, vsp, vsn; pulses reset once (1 then 0) after the last
      enable; disables nothing; and waits 84 ms in total. */
  lemma PrepareSuccessShape(o: Oracle)
    requires forall rail: Rail :: o(RegEnable(rail)) >= 0
    ensures var t := Prepare(o).trace;
      && Enables(t) == PowerOnOrder
      && Disables(t) == []
      && ResetLevels(t) == [1, 0]
      && (forall i, j :: 0 <= i < |t| && 0 <= j < |t| && t[i].RegEnable? && t[j].ResetSet? ==> i < j)
      && Waits(t) == [12, 12, 24, 2, 2, 32]
      && TotalWait(t) == 84
  {
    var t := Prepare(o).trace;
    assert t == PrepareCalls;
    PrepareCallsShape(t);
  }

  lemma PrepareCallsShape(t: seq<Event>)
    requires t == PrepareCalls
    ensures && Enables(t) == PowerOnOrder
      && Disables(t) == []
      && ResetLevels(t) == [1, 0]
      && (forall i, j :: 0 <= i < |t| && 0 <= j < |t| && t[i].RegEnable? && t[j].ResetSet? ==> i < j)
      && Waits(t) == [12, 12, 24, 2, 2, 32]
      && TotalWait(t) == 84
  {
    PrepareCallsRails();
    PrepareCallsWaits();
    PrepareCallsResetLast();
  }

  lemma PrepareCallsResetLast()
    ensures var t := PrepareCalls;
      forall i, j :: 0 <= i < |t| && 0 <= j < |t| && t[i].RegEnable? && t[j].ResetSet? ==> i < j
  {
    assert forall i :: 0 <= i < |PrepareCalls| && PrepareCalls[i].RegEnable? ==> i <= 5;
    assert forall j :: 0 <= j < |PrepareCalls| && PrepareCalls[j].ResetSet? ==> j >= 7;
  }

  lemma PrepareCallsRails()
    ensures Enables(PrepareCalls) == PowerOnOrder
    ensures Disables(PrepareCalls) == []
    ensures ResetLevels(PrepareCalls) == [1, 0]
  {
    PrepareCallsEnables();
    PrepareCallsDisables();
    PrepareCallsResets();
  }

  lemma PrepareCallsEnables() ensures Enables(PrepareCalls) == PowerOnOrder { PrepareCallsParts(EnableOf); }
  lemma PrepareCallsDisables() ensures Disables(PrepareCalls) == [] { PrepareCallsParts(DisableOf); }
  lemma PrepareCallsResets() ensures ResetLevels(PrepareCalls) == [1, 0] { PrepareCallsParts(ResetOf); }

  lemma PrepareCallsWaits()
    ensures Waits(PrepareCalls) == [12, 12, 24, 2, 2, 32]
    ensures TotalWait(PrepareCalls) == 84
  {
    PrepareCallsWaitList();
    assert Sum([12, 12, 24, 2, 2, 32]) == 84;
  }

  lemma PrepareCallsWaitList() ensures Waits(PrepareCalls) == [12, 12, 24, 2, 2, 32] { PrepareCallsParts(WaitOf); }

  /** If the enable of the k-th rail fails after the earlier ones
      succeeded, prepare returns that error; its calls are the successful
      calls up to that enable, so the earlier rails stay enabled, nothing
      is disabled, and no later enable, wait or reset follows. */
  lemma PrepareRailFailure(o: Oracle, k: nat)
    requires k < 4
    requires forall j :: 0 <= j < k ==> o(RegEnable(PowerOnOrder[j])) >= 0
    requires o(RegEnable(PowerOnOrder[k])) < 0
    ensures var r := Prepare(o);
      && r.code == o(RegEnable(PowerOnOrder[k]))
      && r.trace == PrepareCalls[..EnableStep(k) + 1]
      && Enables(r.trace) == PowerOnOrder[..k + 1]
      && (forall i :: 0 <= i < |r.trace| ==> !r.trace[i].RegDisable? && !r.trace[i].ResetSet?)
  {
    var p := EnableStep(k);
    EnablesBeforeSucceed(o, k);
    ScriptStopsAt(o, PrepareCalls, IsEnable, p);
    FailurePrefixEnables(k);
    FailurePrefixQuiet(PrepareCalls[..p + 1]);
  }

  lemma EnablesBeforeSucceed(o: Oracle, k: nat)
    requires k < 4
    requires forall j :: 0 <= j < k ==> o(RegEnable(PowerOnOrder[j])) >= 0
    ensures AllSucceed(o, PrepareCalls[..EnableStep(k)], IsEnable)
  {
    var p := EnableStep(k);
    forall i | 0 <= i < p && IsEnable(PrepareCalls[..p][i])
      ensures o(PrepareCalls[..p][i]) >= 0
    {
      assert PrepareCalls[..p][i] == PrepareCalls[i];
    }
  }

  /** Before the reset pulse, prepare neither disables a rail nor drives
      the reset line. */
  lemma FailurePrefixQuiet(t: seq<Event>)
    requires |t| <= 6 && t == PrepareCalls[..|t|]
    ensures forall i :: 0 <= i < |t| ==> !t[i].RegDisable? && !t[i].ResetSet?
  {
    assert forall i :: 0 <= i < 6 ==> !PrepareCalls[i].RegDisable? && !PrepareCalls[i].ResetSet?;
    assert forall i :: 0 <= i < |t| ==> t[i] == PrepareCalls[i];
  }

  /** The rails enabled up to and including the enable of PowerOnOrder[k]. */
  lemma FailurePrefixEnables(k: nat)
    requires k < 4
    ensures Enables(PrepareCalls[..EnableStep(k) + 1]) == PowerOnOrder[..k + 1]
  {
    if k == 0 {
      assert PrepareCalls[..1] == [RegEnable(Vddio)];
    } else if k == 1 {
      assert PrepareCalls[..2] == [RegEnable(Vddio), RegEnable(Avdd)];
      assert Enables([RegEnable(Vddio), RegEnable(Avdd)]) == [Vddio, Avdd];
    } else if k == 2 {
      assert PrepareCalls[..4] == [RegEnable(Vddio), RegEnable(Avdd), Wait(12), RegEnable(Vsp)];
      assert Enables([RegEnable(Vddio), RegEnable(Avdd), Wait(12), RegEnable(Vsp)]) == [Vddio, Avdd, Vsp];
    } else {
      assert PrepareCalls[..6] ==
        [RegEnable(Vddio), RegEnable(Avdd), Wait(12), RegEnable(Vsp), Wait(12), RegEnable(Vsn)];
      assert Enables([RegEnable(Vddio), RegEnable(Avdd), Wait(12), RegEnable(Vsp), Wait(12), RegEnable(Vsn)])
        == [Vddio, Avdd, Vsp, Vsn];
    }
  }

  /** The calls of sharp_panel_unprepare. */
  const UnprepareCalls: seq<Event> :=
    [ ResetSet(1), RegDisable(Avdd), RegDisable(Vddio), RegDisable(Vsp), RegDisable(Vsn) ]

  /** sharp_panel_unprepare: puts the panel in reset before touching any
      rail, then disables each rail once in the order avdd, vddio, vsp,
      vsn, and returns 0 whatever the disables return. */
  function Unprepare(o: Oracle): (r: Outcome)
    ensures r.code == 0
    ensures 0 < |r.trace| && r.trace[0] == ResetSet(1)
    ensures Disables(r.trace) == PowerOffOrder
    ensures Enables(r.trace) == []
    ensures ResetLevels(r.trace) == [1] && Waits(r.trace) == [] && |r.trace| == 5
  {
    ScriptIgnoresAll(o, UnprepareCalls);
    UnprepareCallsRails();
    Run(o, Script(UnprepareCalls, Unchecked))
  }

  /** Unprepare's behaviour does not depend on what any call returns. */
  lemma UnprepareIgnoresResults(o1: Oracle, o2: Oracle)
    ensures Unprepare(o1) == Unprepare(o2)
  {
    ScriptIgnoresAll(o1, UnprepareCalls);
    ScriptIgnoresAll(o2, UnprepareCalls);
  }

  /** A successful prepare followed by unprepare calls enable and disable
      exactly once on every rail, so no rail is left enabled. */
  lemma PrepareUnprepareBalanced(o: Oracle)
    requires forall rail: Rail :: o(RegEnable(rail)) >= 0
    ensures var t := Prepare(o).trace + Unprepare(o).trace;
      forall rail: Rail :: multiset(Enables(t))[rail] == 1 && multiset(Disables(t))[rail] == 1
  {
    ScriptIgnoresAll(o, UnprepareCalls);
    PrepareCallsRails();
    UnprepareCallsRails();
    OnceEach(PrepareCalls, UnprepareCalls);
  }

  /** Joining a trace that enables each rail once with one that disables
      each rail once gives one enable and one disable per rail. */
  lemma OnceEach(a: seq<Event>, b: seq<Event>)
    requires Enables(a) == PowerOnOrder && Disables(a) == []
    requires Enables(b) == [] && Disables(b) == PowerOffOrder
    ensures forall rail: Rail :: multiset(Enables(a + b))[rail] == 1 && multiset(Disables(a + b))[rail] == 1
  {
    KeepAppend(a, b, EnableOf);
    KeepAppend(a, b, DisableOf);
    assert PowerOnOrder + [] == PowerOnOrder;
    assert [] + PowerOffOrder == PowerOffOrder;
    forall rail: Rail
      ensures multiset(Enables(a + b))[rail] == 1 && multiset(Disables(a + b))[rail] == 1
    {
      OrdersListEachRailOnce(rail);
    }
  }

  lemma OrdersListEachRailOnce(rail: Rail)
    ensures multiset(PowerOnOrder)[rail] == 1 && multiset(PowerOffOrder)[rail] == 1
  {
  }

  /** Unprepare holds the panel in reset and makes no other call than
      the four disables. */
  lemma UnprepareCallsRails()
    ensures Enables(UnprepareCalls) == []
    ensures Disables(UnprepareCalls) == PowerOffOrder
    ensures ResetLevels(UnprepareCalls) == [1]
    ensures Waits(UnprepareCalls) == []
  {
    UnprepareCallsEnables();
    UnprepareCallsResets();
    UnprepareCallsWaits();
  }

  lemma UnprepareCallsEnables() ensures Enables(UnprepareCalls) == [] {}
  lemma UnprepareCallsResets() ensures ResetLevels(UnprepareCalls) == [1] {}
  lemma UnprepareCallsWaits() ensures Waits(UnprepareCalls) == [] {}
}
