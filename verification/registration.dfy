/** Probe and remove: sharp_panel_add, sharp_panel_del, sharp_panel_probe
    and sharp_panel_remove. Of the two DSI devices of the panel, the one
    whose device-tree node carries a `link2` phandle owns the panel; the
    other only attaches to its host. */
module Registration {
  import opened Trace
  import opened Sequencer

  /** The order in which sharp_panel_add looks the supplies up. */
  const SupplyOrder: seq<Rail> := [Avdd, Vddio, Vsp, Vsn]

  /** The body of sharp_panel_add: four supplies and the optional reset
      line, each returned as an error pointer on failure; then the panel
      is initialised, the backlight looked up (any nonzero result is
      returned) and the panel registered. */
  function AddSteps(): seq<Step>
  {
    [ Try(RegulatorGet(Avdd)), Try(RegulatorGet(Vddio)), Try(RegulatorGet(Vsp)), Try(RegulatorGet(Vsn)),
      Try(ResetGpioGet),
      Do(PanelInit),
      TryZero(BacklightLookup),
      Do(PanelAdd) ]
  }

  /** The calls a successful sharp_panel_add makes. */
  const AddCalls: seq<Event> :=
    [ RegulatorGet(Avdd), RegulatorGet(Vddio), RegulatorGet(Vsp), RegulatorGet(Vsn),
      ResetGpioGet, PanelInit, BacklightLookup, PanelAdd ]

  /** Every lookup of sharp_panel_add succeeds under `o`. */
  predicate LookupsSucceed(o: Oracle)
  {
    && (forall rail: Rail :: o(RegulatorGet(rail)) >= 0)
    && o(ResetGpioGet) >= 0
  }

  lemma AddStepsCalls()
    ensures Events(AddSteps()) == AddCalls
  {
  }

  /** sharp_panel_add: returns 0 exactly when every lookup succeeds and
      the backlight lookup returns 0. Its calls are a prefix of AddCalls;
      on failure the last call made is the one that failed, its result is
      returned, and the panel is never registered. A positive result can
      only come from the backlight lookup, made after drm_panel_init. */
  function Add(o: Oracle): (r: Outcome)
    ensures r.code == 0 <==> LookupsSucceed(o) && o(BacklightLookup) == 0
    ensures r.code > 0 ==> LookupsSucceed(o) && r.code == o(BacklightLookup) && |r.trace| == 7
    ensures LookupsSucceed(o) ==> r.code == o(BacklightLookup)
    ensures |r.trace| <= |AddCalls| && r.trace == AddCalls[..|r.trace|]
    ensures r.code == 0 ==> r.trace == AddCalls
    ensures r.code != 0 ==>
      0 < |r.trace| < |AddCalls| && r.code == o(r.trace[|r.trace| - 1]) && PanelAdd !in r.trace
    ensures r.code != 0 ==> FailsFirstAt(o, AddSteps(), |r.trace| - 1)
  {
    AddRun(o);
    Run(o, AddSteps())
  }

  lemma AddRun(o: Oracle)
    ensures var r := Run(o, AddSteps());
      && (r.code == 0 <==> LookupsSucceed(o) && o(BacklightLookup) == 0)
      && (r.code > 0 ==> LookupsSucceed(o) && r.code == o(BacklightLookup) && |r.trace| == 7)
      && (LookupsSucceed(o) ==> r.code == o(BacklightLookup))
      && |r.trace| <= |AddCalls| && r.trace == AddCalls[..|r.trace|]
      && (r.code == 0 ==> r.trace == AddCalls)
      && (r.code != 0 ==>
            0 < |r.trace| < |AddCalls| && r.code == o(r.trace[|r.trace| - 1]) && PanelAdd !in r.trace)
      && (r.code != 0 ==> FailsFirstAt(o, AddSteps(), |r.trace| - 1))
  {
    AddStepsCalls();
    AddSucceeds(o, AddSteps());
    AddFailure(o, AddSteps());
  }

  /** The steps of sharp_panel_add, position by position. */
  predicate AddShaped(s: seq<Step>)
  {
    && |s| == 8
    && s[0] == Try(RegulatorGet(Avdd)) && s[1] == Try(RegulatorGet(Vddio))
    && s[2] == Try(RegulatorGet(Vsp)) && s[3] == Try(RegulatorGet(Vsn))
    && s[4] == Try(ResetGpioGet) && s[5] == Do(PanelInit)
    && s[6] == TryZero(BacklightLookup) && s[7] == Do(PanelAdd)
  }

  lemma AddStepsShaped()
    ensures AddShaped(AddSteps())
  {
  }

  lemma AddSucceeds(o: Oracle, s: seq<Step>)
    requires s == AddSteps()
    ensures Succeeds(o, s) <==> LookupsSucceed(o) && o(BacklightLookup) == 0
  {
    AddStepsShaped();
    ShapedSucceeds(o, s);
  }

  lemma ShapedSucceeds(o: Oracle, s: seq<Step>)
    requires AddShaped(s)
    ensures Succeeds(o, s) <==> LookupsSucceed(o) && o(BacklightLookup) == 0
  {
    if Succeeds(o, s) {
      assert !Fails(o, s[4]) && !Fails(o, s[6]);
      LookupsBefore(o, s);
    } else {
      var i :| 0 <= i < |s| && Fails(o, s[i]);
      if LookupsSucceed(o) {
        assert i == 6;
      }
    }
  }

  /** The four supply lookups are the first four steps of `s`. */
  lemma LookupsBefore(o: Oracle, s: seq<Step>)
    requires AddShaped(s)
    requires forall i :: 0 <= i < 4 ==> !Fails(o, s[i])
    ensures forall rail: Rail :: o(RegulatorGet(rail)) >= 0
  {
    forall rail: Rail
      ensures o(RegulatorGet(rail)) >= 0
    {
      match rail
      case Avdd => assert !Fails(o, s[0]);
      case Vddio => assert !Fails(o, s[1]);
      case Vsp => assert !Fails(o, s[2]);
      case Vsn => assert !Fails(o, s[3]);
    }
  }

  lemma AddFailure(o: Oracle, s: seq<Step>)
    requires s == AddSteps()
    ensures var r := Run(o, s);
      && (r.code != 0 ==> 0 < |r.trace| < |AddCalls| && PanelAdd !in r.trace)
      && (r.code > 0 ==> LookupsSucceed(o) && r.code == o(BacklightLookup) && |r.trace| == 7)
      && (r.code != 0 && LookupsSucceed(o) ==> r.code == o(BacklightLookup))
  {
    var r := Run(o, s);
    if r.code != 0 {
      var m := |r.trace| - 1;
      AddStepsShaped();
      AddFailIndex(o, s, m);
      AddStepsCalls();
      NoPanelAddBefore(r.trace);
    }
  }

  lemma NoPanelAddBefore(t: seq<Event>)
    requires |t| < |AddCalls| && t == AddCalls[..|t|]
    ensures PanelAdd !in t
  {
    assert forall i :: 0 <= i < |t| ==> t[i] == AddCalls[i];
  }

  /** Only lookups and the backlight step can fail, and a positive
      result can only come from the backlight step, after every lookup. */
  lemma AddFailIndex(o: Oracle, s: seq<Step>, m: int)
    requires AddShaped(s) && FailsFirstAt(o, s, m)
    ensures m < 7 && m != 5
    ensures o(s[m].e) > 0 ==> m == 6 && LookupsSucceed(o) && s[m].e == BacklightLookup
    ensures LookupsSucceed(o) ==> m == 6
  {
    if o(s[m].e) > 0 {
      assert m == 6;
      assert forall i :: 0 <= i < 6 ==> s[..6][i] == s[i];
      LookupsBefore(o, s);
      assert !Fails(o, s[4]);
    }
  }

  /** If the k-th lookup is the first to fail, sharp_panel_add returns
      its error at once: no later lookup is made, the panel is neither
      initialised nor registered. */
  lemma AddStopsAt(o: Oracle, k: nat)
    requires k < 5
    requires forall j :: 0 <= j < k ==> o(AddCalls[j]) >= 0
    requires o(AddCalls[k]) < 0
    ensures Add(o) == Outcome(o(AddCalls[k]), AddCalls[..k + 1])
  {
    var s := AddSteps();
    AddStepsShaped();
    AddStepsCalls();
    forall i | 0 <= i < k
      ensures !Fails(o, s[..k][i])
    {
      assert s[..k][i] == s[i] == Try(AddCalls[i]);
    }
    assert Fails(o, s[k]);
    RunStopsAt(o, s, k);
    assert Events(s[..k + 1]) == Events(s)[..k + 1];
  }

  /** sharp_panel_add takes and drops no references. */
  lemma AddHoldsNoReference(o: Oracle)
    ensures forall n: NodeId :: NodeHeld(Add(o).trace, n) == 0
    ensures forall d: DeviceId :: DevHeld(Add(o).trace, d) == 0
  {
    AddReturns(o);
    NothingHeld(Add(o).trace);
  }

  /** A call that neither takes nor drops a device or node reference. */
  predicate TakesNothing(e: Event)
  {
    !e.NodeGet? && !e.NodePut? && !e.DevGet? && !e.DevPut?
  }

  lemma NothingHeld(t: seq<Event>)
    requires forall i :: 0 <= i < |t| ==> TakesNothing(t[i])
    ensures forall n: NodeId :: NodeHeld(t, n) == 0
    ensures forall d: DeviceId :: DevHeld(t, d) == 0
    ensures forall d: DeviceId :: DevGet(d) !in t && DevPut(d) !in t
  {
    forall n: NodeId
      ensures NodeHeld(t, n) == 0
    {
      assert NodeGet(n) !in t && NodePut(n) !in t;
    }
    forall d: DeviceId
      ensures DevHeld(t, d) == 0
    {
      assert DevGet(d) !in t && DevPut(d) !in t;
    }
  }

  /** What probe relies on about the result of sharp_panel_add: it takes
      no reference and unregisters nothing, a nonnegative result means
      drm_panel_init ran, and a negative one that the panel was not
      registered. */
  predicate AddReturned(add: Outcome)
  {
    && (forall i :: 0 <= i < |add.trace| ==> TakesNothing(add.trace[i]) && add.trace[i] != PanelRemove)
    && (add.code >= 0 ==> PanelInit in add.trace)
    && (add.code < 0 ==> PanelAdd !in add.trace)
  }

  lemma AddReturns(o: Oracle)
    ensures AddReturned(Add(o))
  {
    var r := Add(o);
    AddCallsPrefix(r.trace);
    if r.code >= 0 {
      AddInitialises(r.trace);
    }
  }

  lemma AddCallsPrefix(t: seq<Event>)
    requires |t| <= |AddCalls| && t == AddCalls[..|t|]
    ensures forall i :: 0 <= i < |t| ==> TakesNothing(t[i]) && t[i] != PanelRemove
  {
    assert forall i :: 0 <= i < |AddCalls| ==> TakesNothing(AddCalls[i]) && AddCalls[i] != PanelRemove;
    assert forall i :: 0 <= i < |t| ==> t[i] == AddCalls[i];
  }

  /** A call sequence of sharp_panel_add that got past drm_panel_init. */
  lemma AddInitialises(t: seq<Event>)
    requires 6 <= |t| <= |AddCalls| && t == AddCalls[..|t|]
    ensures PanelInit in t
  {
    assert t[5] == AddCalls[5];
  }

  /** sharp_panel_add looks up avdd, vddio, vsp, vsn and then the reset
      line, and registers the panel only after all of them. */
  lemma AddLookupOrder()
    ensures Lookups(AddCalls) == SupplyOrder
    ensures forall i, j ::
      0 <= i < |AddCalls| && 0 <= j < |AddCalls| &&
      (AddCalls[i].RegulatorGet? || AddCalls[i] == ResetGpioGet) && AddCalls[j] == PanelAdd
      ==> i < j
  {
  }

  /** The driver's private state: the two links and whether drm_panel_init
      has run (base.dev is set). */
  datatype Panel = Panel(link1: DeviceId, link2: Option<DeviceId>, initialised: bool)

  /** sharp_panel_del: unregisters an initialised panel and drops the
      reference to link2. */
  function Del(p: Panel): (t: seq<Event>)
    ensures (PanelRemove in t) == p.initialised
    ensures forall d: DeviceId :: multiset(t)[DevPut(d)] == (if p.link2 == Some(d) then 1 else 0)
    ensures forall d: DeviceId :: DevGet(d) !in t
  {
    (if p.initialised then [PanelRemove] else [])
    + (if p.link2.Some? then [DevPut(p.link2.value)] else [])
  }

  /** DSI settings that probe writes into the device before anything else. */
  datatype PixelFormat = Rgb888
  datatype ModeFlag = ModeVideo | ModeLpm
  datatype DsiSettings = DsiSettings(lanes: nat, format: PixelFormat, flags: set<ModeFlag>)

  /** What probe sees: the device being probed, the node its `link2`
      phandle points to (if any), which device the bus holds for a node
      (of_find_mipi_dsi_device_by_node), whether devm_kzalloc finds memory (`memory`),
      and the oracle for every other call. */
  datatype ProbeEnv = ProbeEnv(
    dsi: DeviceId,
    link2Node: Option<NodeId>,
    findDevice: NodeId -> Option<DeviceId>,
    memory: bool,
    o: Oracle)

  /** What probe returns, the calls it made, the driver data it leaves on
      the device, and the DSI settings it wrote. */
  datatype ProbeResult = ProbeResult(
    code: int, trace: seq<Event>, drvdata: Option<Panel>, settings: DsiSettings)

  /** The secondary device probe finds through the `link2` phandle. */
  function Secondary(env: ProbeEnv): Option<DeviceId>
  {
    match env.link2Node
    case None => None
    case Some(n) => env.findDevice(n)
  }

  /** The settings probe writes into the DSI device: four lanes, RGB888,
      video mode in low-power mode. */
  const ProbeSettings: DsiSettings := DsiSettings(4, Rgb888, {ModeVideo, ModeLpm})

  /** What a probe leaves behind: no node reference, a reference to the
      secondary device exactly when it keeps a panel driving it, and a
      panel it registered either unregistered again, if it failed, or
      kept, initialised, as its driver data. */
  ghost predicate Released(r: ProbeResult)
  {
    && (forall n: NodeId :: NodeHeld(r.trace, n) == 0)
    && (forall d: DeviceId ::
          DevHeld(r.trace, d) == (if r.drvdata.Some? && r.drvdata.value.link2 == Some(d) then 1 else 0))
    && (PanelAdd in r.trace ==>
          if r.code < 0 then PanelRemove in r.trace
          else r.drvdata.Some? && r.drvdata.value.initialised)
  }

  /** Probe takes one reference to the secondary device `sec` and drops
      it exactly once if it fails, never if it succeeds. */
  predicate ReleasedOnce(r: ProbeResult, sec: DeviceId)
  {
    && multiset(r.trace)[DevGet(sec)] == 1
    && multiset(r.trace)[DevPut(sec)] == (if r.code < 0 then 1 else 0)
  }

  /** sharp_panel_probe. A device whose node has a `link2` phandle looks
      the secondary device up (deferring the probe while it is not there
      yet), allocates and registers the panel, and attaches to its host; a
      device without one only attaches. The driver core clears the driver
      data of a device whose probe fails, so a failed probe leaves none. */
  function Probe(env: ProbeEnv): (r: ProbeResult)
    ensures r.settings == ProbeSettings
    ensures r.code <= 0
    ensures r.code < 0 ==> r.drvdata == None
    ensures r.drvdata.Some? <==> r.code == 0 && Secondary(env).Some?
    ensures r.drvdata.Some? ==> r.drvdata.value == Panel(env.dsi, Secondary(env), true)
  {
    match env.link2Node
    case Some(n) => ProbeLinked(env, n, env.findDevice(n))
    case None =>
      var err := env.o(Attach(env.dsi));
      ProbeResult(if err < 0 then err else 0, [Attach(env.dsi)], None, ProbeSettings)
  }

  /** Whatever every call returns, probe holds no node reference, holds a
      reference to the secondary device exactly while it keeps a panel
      driving it, and unregisters a panel it registered before failing.
      The secondary's reference is taken once and, on failure, dropped
      once. */
  lemma ProbeReleases(env: ProbeEnv)
    ensures Released(Probe(env))
    ensures Secondary(env).Some? ==> ReleasedOnce(Probe(env), Secondary(env).value)
  {
    match env.link2Node
    case Some(n) =>
      LinkedReleases(env, n, env.findDevice(n));
    case None =>
      NothingHeld(Probe(env).trace);
  }

  /** Probe of a device whose `link2` phandle points at node `n`, for
      which the bus holds `found`. */
  function ProbeLinked(env: ProbeEnv, n: NodeId, found: Option<DeviceId>): (r: ProbeResult)
    ensures r.settings == ProbeSettings
    ensures r.code <= 0
    ensures r.drvdata.Some? <==> r.code == 0 && found.Some?
    ensures r.drvdata.Some? ==> r.drvdata == Some(Panel(env.dsi, found, true))
    ensures found.None? ==> r.code == -EPROBE_DEFER && r.trace == [NodeGet(n), NodePut(n)]
  {
    match found
    case None =>
      ProbeResult(-EPROBE_DEFER, [NodeGet(n), NodePut(n)], None, ProbeSettings)
    case Some(sec) =>
      var owner := ProbeOwner(env, sec);
      owner.(trace := [NodeGet(n), DevGet(sec), NodePut(n)] + owner.trace)
  }

  lemma LinkedReleases(env: ProbeEnv, n: NodeId, found: Option<DeviceId>)
    ensures Released(ProbeLinked(env, n, found))
    ensures found.Some? ==> ReleasedOnce(ProbeLinked(env, n, found), found.value)
  {
    var r := ProbeLinked(env, n, found);
    match found
    case None =>
      DeferReleases(n, r);
    case Some(sec) =>
      OwnerUnwinds(env, sec);
      OwnerReleases(n, sec, ProbeOwner(env, sec), r);
  }

  lemma DeferReleases(n: NodeId, r: ProbeResult)
    requires r.trace == [NodeGet(n), NodePut(n)] && r.drvdata.None? && r.code < 0
    ensures Released(r)
  {
    assert multiset(r.trace) == multiset{NodeGet(n), NodePut(n)};
    forall d: DeviceId
      ensures DevHeld(r.trace, d) == 0
    {
      assert multiset(r.trace)[DevGet(d)] == 0 && multiset(r.trace)[DevPut(d)] == 0;
    }
  }

  /** The lookup's node reference is dropped at once, and its device
      reference is the one the owner part accounts for. */
  lemma OwnerReleases(n: NodeId, sec: DeviceId, owner: ProbeResult, r: ProbeResult)
    requires Unwound(owner, sec)
    requires owner.code <= 0 && (owner.drvdata.Some? <==> owner.code == 0)
    requires owner.drvdata.Some? ==> owner.drvdata.value.link2 == Some(sec) && owner.drvdata.value.initialised
    requires r == owner.(trace := [NodeGet(n), DevGet(sec), NodePut(n)] + owner.trace)
    ensures Released(r)
    ensures ReleasedOnce(r, sec)
  {
    var lookup := [NodeGet(n), DevGet(sec), NodePut(n)];
    LookupHolds(n, sec);
    HeldAppend(lookup, owner.trace);
    assert multiset(r.trace)[DevGet(sec)] == multiset(lookup)[DevGet(sec)] + multiset(owner.trace)[DevGet(sec)];
    assert multiset(r.trace)[DevPut(sec)] == multiset(lookup)[DevPut(sec)] + multiset(owner.trace)[DevPut(sec)];
    forall d: DeviceId
      ensures DevHeld(r.trace, d) ==
        (if r.drvdata.Some? && r.drvdata.value.link2 == Some(d) then 1 else 0)
    {
      assert DevHeld(r.trace, d) == DevHeld(lookup, d) + DevHeld(owner.trace, d);
    }
    assert PanelAdd in r.trace ==> PanelAdd in owner.trace;
  }

  /** The lookup takes a node reference and drops it, and takes one
      reference to the secondary device. */
  lemma LookupHolds(n: NodeId, sec: DeviceId)
    ensures forall m: NodeId :: NodeHeld([NodeGet(n), DevGet(sec), NodePut(n)], m) == 0
    ensures forall d: DeviceId :: DevHeld([NodeGet(n), DevGet(sec), NodePut(n)], d) == (if d == sec then 1 else 0)
    ensures multiset([NodeGet(n), DevGet(sec), NodePut(n)])[DevGet(sec)] == 1
    ensures multiset([NodeGet(n), DevGet(sec), NodePut(n)])[DevPut(sec)] == 0
  {
    assert multiset([NodeGet(n), DevGet(sec), NodePut(n)]) == multiset{NodeGet(n), DevGet(sec), NodePut(n)};
  }

  /** What probe leaves behind once it found the secondary device `sec`
      and took a reference to it, counting from just after the lookup: no
      node reference; no further device reference taken; the reference to
      `sec` dropped once exactly when probe fails and no other device
      reference dropped; and, on failure, a registered panel unregistered
      again. */
  ghost predicate Unwound(r: ProbeResult, sec: DeviceId)
  {
    && (forall n: NodeId :: NodeHeld(r.trace, n) == 0)
    && (forall d: DeviceId :: DevGet(d) !in r.trace)
    && (forall d: DeviceId :: multiset(r.trace)[DevPut(d)] == (if d == sec && r.code < 0 then 1 else 0))
    && (r.code < 0 && PanelAdd in r.trace ==> PanelRemove in r.trace)
  }

  /** The part of probe that runs once the secondary device `sec` was
      found; the trace starts after the lookup. */
  function ProbeOwner(env: ProbeEnv, sec: DeviceId): (r: ProbeResult)
    ensures r.settings == ProbeSettings
    ensures r.code <= 0
    ensures r.drvdata.Some? <==> r.code == 0
    ensures r.drvdata.Some? ==> r.drvdata.value == Panel(env.dsi, Some(sec), true)
    ensures !env.memory ==> r.code == -ENOMEM && r.trace == [DevPut(sec)]
  {
    if !env.memory then
      ProbeResult(-ENOMEM, [DevPut(sec)], None, ProbeSettings)
    else
      AddReturns(env.o);
      AfterAdd(env, sec, Add(env.o))
  }

  /** The owner part fails exactly when the allocation, sharp_panel_add
      or the attach fails, and every way out of it drops the secondary's
      reference once on failure and keeps it on success. */
  lemma OwnerUnwinds(env: ProbeEnv, sec: DeviceId)
    ensures ProbeOwner(env, sec).code < 0 <==>
      !env.memory || Add(env.o).code < 0 || env.o(Attach(env.dsi)) < 0
    ensures Unwound(ProbeOwner(env, sec), sec)
  {
    if !env.memory {
      var r := ProbeOwner(env, sec);
      assert multiset(r.trace) == multiset{DevPut(sec)};
    } else {
      AddReturns(env.o);
      AfterAddUnwinds(env, sec, Add(env.o));
    }
  }

  /** The rest of probe once sharp_panel_add has returned `add`. */
  function AfterAdd(env: ProbeEnv, sec: DeviceId, add: Outcome): (r: ProbeResult)
    requires AddReturned(add)
    ensures r.settings == ProbeSettings
    ensures r.code <= 0
    ensures r.code == 0 <==> add.code >= 0 && env.o(Attach(env.dsi)) >= 0
    ensures r.drvdata.Some? <==> r.code == 0
    ensures r.drvdata.Some? ==> r.drvdata.value == Panel(env.dsi, Some(sec), true)
    ensures add.code < 0 ==> r.code == add.code && r.trace == add.trace + [DevPut(sec)]
    ensures add.code >= 0 && env.o(Attach(env.dsi)) < 0 ==>
      && r.code == env.o(Attach(env.dsi))
      && r.trace == add.trace + [Attach(env.dsi)] + Del(Panel(env.dsi, Some(sec), true))
  {
    var panel := Panel(env.dsi, Some(sec), PanelInit in add.trace);
    if add.code < 0 then
      ProbeResult(add.code, add.trace + [DevPut(sec)], None, ProbeSettings)
    else
      var err := env.o(Attach(env.dsi));
      var t := add.trace + [Attach(env.dsi)];
      if err < 0 then
        ProbeResult(err, t + Del(panel), None, ProbeSettings)
      else
        ProbeResult(0, t, Some(panel), ProbeSettings)
  }

  /** A failed add, a failed attach (through sharp_panel_del) and a
      successful attach each leave the reference counts Unwound states. */
  lemma AfterAddUnwinds(env: ProbeEnv, sec: DeviceId, add: Outcome)
    requires AddReturned(add)
    ensures Unwound(AfterAdd(env, sec, add), sec)
  {
    var r := AfterAdd(env, sec, add);
    var panel := Panel(env.dsi, Some(sec), PanelInit in add.trace);
    if add.code < 0 {
      AddFailureUnwinds(add, sec, r);
    } else if env.o(Attach(env.dsi)) < 0 {
      AttachFailureUnwinds(add, panel, r);
    } else {
      AttachedHolds(add, panel, r);
    }
  }

  /** sharp_panel_add failed: only the secondary's reference is dropped. */
  lemma AddFailureUnwinds(add: Outcome, sec: DeviceId, r: ProbeResult)
    requires AddReturned(add) && add.code < 0
    requires r.code == add.code && r.trace == add.trace + [DevPut(sec)]
    ensures Unwound(r, sec)
  {
    NothingHeld(add.trace);
    HeldAppend(add.trace, [DevPut(sec)]);
  }

  /** Attaching failed after sharp_panel_add returned: sharp_panel_del
      unregisters the panel, which was initialised, and drops the
      secondary's reference. */
  lemma AttachFailureUnwinds(add: Outcome, panel: Panel, r: ProbeResult)
    requires AddReturned(add) && add.code >= 0
    requires panel.link2.Some? && panel.initialised == (PanelInit in add.trace)
    requires r.code < 0 && r.trace == add.trace + [Attach(panel.link1)] + Del(panel)
    ensures Unwound(r, panel.link2.value)
  {
    NothingHeld(add.trace);
    HeldAppend(add.trace, [Attach(panel.link1)]);
    HeldAppend(add.trace + [Attach(panel.link1)], Del(panel));
  }

  /** Probe succeeded: the secondary's reference is kept. */
  lemma AttachedHolds(add: Outcome, panel: Panel, r: ProbeResult)
    requires AddReturned(add)
    requires panel.link2.Some?
    requires r.code == 0 && r.trace == add.trace + [Attach(panel.link1)]
    ensures Unwound(r, panel.link2.value)
  {
    NothingHeld(add.trace);
    HeldAppend(add.trace, [Attach(panel.link1)]);
  }

  /** sharp_panel_remove: detaches from the host whatever the result, and
      tears down the panel if this device owns one. */
  function Remove(dsi: DeviceId, drvdata: Option<Panel>): (t: seq<Event>)
    ensures |t| > 0 && t[0] == Detach(dsi)
    ensures drvdata.None? ==> t == [Detach(dsi)]
    ensures forall n: NodeId :: NodeHeld(t, n) == 0
    ensures forall d: DeviceId ::
      DevHeld(t, d) == (if drvdata.Some? && drvdata.value.link2 == Some(d) then -1 else 0)
    ensures (PanelRemove in t) <==> drvdata.Some? && drvdata.value.initialised
    ensures |t| <= 3
    ensures forall i :: 0 < i < |t| ==> t[i] == PanelRemove || t[i].DevPut?
  {
    [Detach(dsi)] + (match drvdata case Some(p) => Del(p) case None => [])
  }

  /** Removing a device whose probe kept a panel detaches it,
      unregisters the panel and drops the secondary's reference, and does
      nothing else. */
  lemma RemoveAfterProbe(env: ProbeEnv)
    requires Probe(env).drvdata.Some?
    ensures Secondary(env).Some?
    ensures Remove(env.dsi, Probe(env).drvdata) ==
      [Detach(env.dsi), PanelRemove, DevPut(Secondary(env).value)]
  {
  }

  /** A device whose `link2` phandle points at a node without a device
      yet defers its probe: it drops the node reference again and makes no
      other call. */
  lemma ProbeDefers(env: ProbeEnv)
    requires env.link2Node.Some? && env.findDevice(env.link2Node.value).None?
    ensures var r := Probe(env);
      && r.code == -EPROBE_DEFER && r.drvdata == None
      && r.trace == [NodeGet(env.link2Node.value), NodePut(env.link2Node.value)]
  {
  }

  /** A device without a `link2` phandle only attaches to its host; it
      owns no panel and returns the attach error, if any. */
  lemma ProbeWithoutLink2(env: ProbeEnv)
    requires env.link2Node.None?
    ensures var r := Probe(env);
      && r.trace == [Attach(env.dsi)] && r.drvdata == None
      && r.code == (if env.o(Attach(env.dsi)) < 0 then env.o(Attach(env.dsi)) else 0)
  {
  }

  /** sharp_panel_add returned without error and the host accepted the
      attach: probe keeps the panel, and add's calls and the attach are
      all that follow the lookup. */
  lemma AfterAddAttached(env: ProbeEnv, sec: DeviceId, add: Outcome)
    requires AddReturned(add) && add.code >= 0 && env.o(Attach(env.dsi)) >= 0
    ensures AfterAdd(env, sec, add) ==
      ProbeResult(0, add.trace + [Attach(env.dsi)], Some(Panel(env.dsi, Some(sec), true)), ProbeSettings)
  {
  }

  lemma OwnerAttached(env: ProbeEnv, sec: DeviceId)
    requires env.memory && LookupsSucceed(env.o) && env.o(BacklightLookup) >= 0
    requires env.o(Attach(env.dsi)) >= 0
    ensures ProbeOwner(env, sec) ==
      ProbeResult(0, Add(env.o).trace + [Attach(env.dsi)], Some(Panel(env.dsi, Some(sec), true)), ProbeSettings)
  {
    AddReturns(env.o);
    AfterAddAttached(env, sec, Add(env.o));
  }

  /** With the secondary present, memory available, every lookup
      succeeding, a backlight result that is not negative and the host
      accepting the attach, probe succeeds and keeps the panel; its calls
      are the lookup, those of sharp_panel_add and the attach. */
  lemma ProbeAttached(env: ProbeEnv)
    requires Secondary(env).Some? && env.memory
    requires LookupsSucceed(env.o) && env.o(BacklightLookup) >= 0 && env.o(Attach(env.dsi)) >= 0
    ensures env.link2Node.Some?
    ensures Probe(env) ==
      ProbeResult(
        0,
        [NodeGet(env.link2Node.value), DevGet(Secondary(env).value), NodePut(env.link2Node.value)]
          + (Add(env.o).trace + [Attach(env.dsi)]),
        Some(Panel(env.dsi, Secondary(env), true)),
        ProbeSettings)
  {
    OwnerAttached(env, Secondary(env).value);
  }

  lemma ProbeAttachedAdds(env: ProbeEnv)
    requires Secondary(env).Some? && env.memory
    requires LookupsSucceed(env.o) && env.o(BacklightLookup) == 0 && env.o(Attach(env.dsi)) >= 0
    ensures PanelAdd in Probe(env).trace
    ensures Probe(env).trace[|Probe(env).trace| - 1] == Attach(env.dsi)
  {
    ProbeAttached(env);
    var n := env.link2Node.value;
    var l := [NodeGet(n), DevGet(Secondary(env).value), NodePut(n)];
    AddRegisters(env.o);
    AppendedAfter(Probe(env).trace, l, Add(env.o).trace, Attach(env.dsi));
  }

  lemma ProbeAttachedSkipsAdd(env: ProbeEnv)
    requires Secondary(env).Some? && env.memory
    requires LookupsSucceed(env.o) && env.o(BacklightLookup) > 0 && env.o(Attach(env.dsi)) >= 0
    ensures PanelAdd !in Probe(env).trace
  {
    ProbeAttached(env);
    var n := env.link2Node.value;
    var l := [NodeGet(n), DevGet(Secondary(env).value), NodePut(n)];
    AddStopsAtBacklight(env.o);
    NotAppended(Probe(env).trace, l, Add(env.o).trace, Attach(env.dsi));
  }

  /** A successful sharp_panel_add registers the panel. */
  lemma AddRegisters(o: Oracle)
    requires LookupsSucceed(o) && o(BacklightLookup) == 0
    ensures PanelAdd in Add(o).trace
  {
    assert AddCalls[7] == PanelAdd;
  }

  /** A positive backlight result stops sharp_panel_add before it
      registers the panel. */
  lemma AddStopsAtBacklight(o: Oracle)
    requires LookupsSucceed(o) && o(BacklightLookup) > 0
    ensures PanelAdd !in Add(o).trace
  {
  }

  lemma AppendedAfter(t: seq<Event>, l: seq<Event>, a: seq<Event>, x: Event)
    requires t == l + (a + [x]) && PanelAdd in a
    ensures PanelAdd in t && t[|t| - 1] == x
  {
  }

  lemma NotAppended(t: seq<Event>, l: seq<Event>, a: seq<Event>, x: Event)
    requires t == l + (a + [x])
    requires PanelAdd !in l && PanelAdd !in a && x != PanelAdd
    ensures PanelAdd !in t
  {
  }

  /** devm_kzalloc found no memory: probe drops the secondary's reference
      and returns -ENOMEM, making no call after the lookup but that put. */
  lemma ProbeNoMemory(env: ProbeEnv)
    requires Secondary(env).Some? && !env.memory
    ensures env.link2Node.Some?
    ensures Probe(env) ==
      ProbeResult(
        -ENOMEM,
        [NodeGet(env.link2Node.value), DevGet(Secondary(env).value), NodePut(env.link2Node.value),
         DevPut(Secondary(env).value)],
        None,
        ProbeSettings)
  {
  }

  /** sharp_panel_add failed: probe returns its error, keeps no panel,
      and its calls after the lookup are those of sharp_panel_add and the
      put of the secondary, whose reference it no longer holds. */
  lemma ProbeAddFails(env: ProbeEnv)
    requires Secondary(env).Some? && env.memory
    requires !LookupsSucceed(env.o) || env.o(BacklightLookup) < 0
    ensures env.link2Node.Some?
    ensures var r := Probe(env); var sec := Secondary(env).value;
      && r.code == Add(env.o).code < 0
      && r.drvdata == None
      && r.trace ==
           [NodeGet(env.link2Node.value), DevGet(sec), NodePut(env.link2Node.value)]
             + (Add(env.o).trace + [DevPut(sec)])
  {
    AddReturns(env.o);
  }

  /** The host refused the attach after sharp_panel_add succeeded: probe
      returns the attach error, keeps no panel, and sharp_panel_del
      unregisters the panel and drops the secondary's reference. */
  lemma ProbeAttachFails(env: ProbeEnv)
    requires Secondary(env).Some? && env.memory
    requires LookupsSucceed(env.o) && env.o(BacklightLookup) >= 0 && env.o(Attach(env.dsi)) < 0
    ensures env.link2Node.Some?
    ensures var r := Probe(env); var sec := Secondary(env).value;
      && r.code == env.o(Attach(env.dsi))
      && r.drvdata == None
      && r.trace ==
           [NodeGet(env.link2Node.value), DevGet(sec), NodePut(env.link2Node.value)]
             + (Add(env.o).trace + [Attach(env.dsi)] + [PanelRemove, DevPut(sec)])
  {
    OwnerAttachFails(env, Secondary(env).value);
  }

  lemma OwnerAttachFails(env: ProbeEnv, sec: DeviceId)
    requires env.memory && LookupsSucceed(env.o) && env.o(BacklightLookup) >= 0
    requires env.o(Attach(env.dsi)) < 0
    ensures ProbeOwner(env, sec) ==
      ProbeResult(
        env.o(Attach(env.dsi)),
        Add(env.o).trace + [Attach(env.dsi)] + [PanelRemove, DevPut(sec)],
        None,
        ProbeSettings)
  {
    AddReturns(env.o);
    AfterAddAttachFails(env, sec, Add(env.o));
  }

  lemma AfterAddAttachFails(env: ProbeEnv, sec: DeviceId, add: Outcome)
    requires AddReturned(add) && add.code >= 0 && env.o(Attach(env.dsi)) < 0
    ensures AfterAdd(env, sec, add) ==
      ProbeResult(env.o(Attach(env.dsi)), add.trace + [Attach(env.dsi)] + [PanelRemove, DevPut(sec)], None, ProbeSettings)
  {
    assert Del(Panel(env.dsi, Some(sec), true)) == [PanelRemove, DevPut(sec)];
  }

  /** A failed add or attach leaves the secondary's reference dropped
      exactly once: probe holds no reference to it. */
  lemma ProbeFailureDropsSecondary(env: ProbeEnv)
    requires Secondary(env).Some? && env.memory
    requires !LookupsSucceed(env.o) || env.o(BacklightLookup) < 0 || env.o(Attach(env.dsi)) < 0
    ensures Probe(env).code < 0
    ensures DevHeld(Probe(env).trace, Secondary(env).value) == 0
    ensures ReleasedOnce(Probe(env), Secondary(env).value)
  {
    OwnerUnwinds(env, Secondary(env).value);
    ProbeReleases(env);
  }

  /** With the secondary present, memory available, every lookup
      succeeding and the host accepting the attach, probe registers the
      panel and keeps it. */
  lemma ProbeRegistersPanel(env: ProbeEnv)
    requires Secondary(env).Some? && env.memory
    requires LookupsSucceed(env.o) && env.o(BacklightLookup) == 0 && env.o(Attach(env.dsi)) >= 0
    ensures var r := Probe(env);
      && r.code == 0 && r.drvdata == Some(Panel(env.dsi, Secondary(env), true))
      && PanelAdd in r.trace && r.trace[|r.trace| - 1] == Attach(env.dsi)
  {
    ProbeAttached(env);
    ProbeAttachedAdds(env);
  }

  /** drm_panel_of_backlight is checked with `if (ret)` in sharp_panel_add
      but probe only treats a negative result as failure: a positive
      result from the backlight lookup leaves a panel that probe keeps and
      remove unregisters although it was never registered. */
  lemma ProbeKeepsUnregisteredPanel(env: ProbeEnv)
    requires Secondary(env).Some? && env.memory
    requires LookupsSucceed(env.o) && env.o(BacklightLookup) > 0 && env.o(Attach(env.dsi)) >= 0
    ensures var r := Probe(env);
      && r.code == 0 && r.drvdata == Some(Panel(env.dsi, Secondary(env), true))
      && PanelAdd !in r.trace
      && PanelRemove in Remove(env.dsi, r.drvdata)
  {
    ProbeAttached(env);
    ProbeAttachedSkipsAdd(env);
  }

  /** Probing and then removing a device leaves no device or node
      reference behind, and a panel that was registered is unregistered. */
  lemma ProbeThenRemove(env: ProbeEnv)
    ensures var r := Probe(env);
      var t := r.trace + Remove(env.dsi, r.drvdata);
      && (forall d: DeviceId :: DevHeld(t, d) == 0)
      && (forall n: NodeId :: NodeHeld(t, n) == 0)
      && (PanelAdd in t ==> PanelRemove in t)
  {
    ProbeReleases(env);
    RemoveDropsReferences(Probe(env), env.dsi);
    RemoveUnregisters(Probe(env), env.dsi);
  }

  /** Remove drops exactly the references a probe that left `r` behind
      still holds. */
  lemma RemoveDropsReferences(r: ProbeResult, dsi: DeviceId)
    requires Released(r)
    ensures forall d: DeviceId :: DevHeld(r.trace + Remove(dsi, r.drvdata), d) == 0
    ensures forall n: NodeId :: NodeHeld(r.trace + Remove(dsi, r.drvdata), n) == 0
  {
    HeldAppend(r.trace, Remove(dsi, r.drvdata));
  }

  /** Remove unregisters a panel that a probe registered and kept. */
  lemma RemoveUnregisters(r: ProbeResult, dsi: DeviceId)
    requires Released(r)
    ensures PanelAdd in r.trace + Remove(dsi, r.drvdata) ==> PanelRemove in r.trace + Remove(dsi, r.drvdata)
  {
    var u := Remove(dsi, r.drvdata);
    assert PanelAdd !in u;
  }

  /** The two DSI devices of one panel: `primary`'s node carries the
      `link2` phandle, pointing at the node of `secondary`, which carries
      none. Whichever is probed first, only `primary` can own the panel,
      driving `secondary` as its second link; `secondary` only attaches.
      While `secondary` is not yet on the bus, `primary` defers. */
  lemma PairingRule(primary: ProbeEnv, secondary: ProbeEnv)
    requires primary.link2Node.Some? && secondary.link2Node.None?
    requires primary.findDevice(primary.link2Node.value) in {None, Some(secondary.dsi)}
    ensures Probe(secondary).drvdata == None && PanelAdd !in Probe(secondary).trace
    ensures Probe(primary).drvdata.Some? ==>
      Probe(primary).drvdata.value.link1 == primary.dsi
      && Probe(primary).drvdata.value.link2 == Some(secondary.dsi)
    ensures Secondary(primary).None? ==> Probe(primary).code == -EPROBE_DEFER
  {
  }
}
