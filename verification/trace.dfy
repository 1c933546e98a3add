/** The vocabulary shared by every part of the model: the panel's power
    rails and links, the calls the driver makes into the kernel (recorded as
    trace events), the oracle that decides what each call returns, and the
    projections used to state facts about the shape of a trace. */
module Trace {

  type byte = x: int | 0 <= x < 256

  /** Opaque identities of DSI devices and device-tree nodes. */
  type DeviceId = nat
  type NodeId = nat

  datatype Option<T> = None | Some(value: T)

  /** The four supplies of the panel (struct sharp_panel). */
  datatype Rail = Avdd | Vddio | Vsp | Vsn

  /** The two DSI links of the dual-link panel. */
  datatype Link = Link1 | Link2

  /** DCS commands, kept symbolic: their opcodes are defined outside this file. */
  datatype DcsCommand =
    | ExitSleepMode
    | EnterSleepMode
    | SetDisplayOn
    | SetDisplayOff
    | SetDisplayBrightness
    | WritePowerSave
    | WriteControlDisplay

  /** One call made by the driver. */
  datatype Event =
    | RegEnable(rail: Rail)                 // regulator_enable
    | RegDisable(rail: Rail)                // regulator_disable
    | ResetSet(level: int)                  // gpiod_set_value_cansleep on the reset line
    | Wait(ms: nat)                         // msleep / usleep_range, minimum duration
    | Dcs(link: Link, cmd: DcsCommand, payload: seq<byte>)  // a DCS write on one link
    | NodeGet(node: NodeId)                 // of_parse_phandle hands out a node reference
    | NodePut(node: NodeId)                 // of_node_put
    | DevGet(dev: DeviceId)                 // of_find_mipi_dsi_device_by_node takes a device reference
    | DevPut(dev: DeviceId)                 // put_device
    | RegulatorGet(supply: Rail)            // devm_regulator_get
    | ResetGpioGet                          // devm_gpiod_get_optional(dev, "reset", GPIOD_OUT_LOW)
    | PanelInit                             // drm_panel_init
    | BacklightLookup                       // drm_panel_of_backlight
    | PanelAdd                              // drm_panel_add
    | PanelRemove                           // drm_panel_remove
    | Attach(dev: DeviceId)                 // mipi_dsi_attach
    | Detach(dev: DeviceId)                 // mipi_dsi_detach

  /** The integer each call returns; negative values are error codes. */
  type Oracle = Event -> int

  /** Error numbers used by the driver. */
  const ENOMEM: int := 12
  const EPROBE_DEFER: int := 517

  /** The same write, sent to link2. */
  function OnLink2(e: Event): (m: Event)
    requires e.Dcs?
    ensures m.Dcs? && m.link == Link2 && m.cmd == e.cmd && m.payload == e.payload
  {
    e.(link := Link2)
  }

  /** Keeps, in order, the parts of the events that `f` selects. */
  function Keep<U>(t: seq<Event>, f: Event -> Option<U>): (r: seq<U>)
    ensures |r| <= |t|
    decreases |t|
  {
    if |t| == 0 then []
    else (match f(t[0]) case Some(u) => [u] case None => []) + Keep(t[1..], f)
  }

  lemma {:induction false} KeepAppend<U>(a: seq<Event>, b: seq<Event>, f: Event -> Option<U>)
    ensures Keep(a + b, f) == Keep(a, f) + Keep(b, f)
    decreases |a|
  {
    if |a| == 0 {
      assert a + b == b;
    } else {
      assert (a + b)[1..] == a[1..] + b;
      KeepAppend(a[1..], b, f);
    }
  }

  function EnableOf(e: Event): Option<Rail> { if e.RegEnable? then Some(e.rail) else None }
  function DisableOf(e: Event): Option<Rail> { if e.RegDisable? then Some(e.rail) else None }
  function ResetOf(e: Event): Option<int> { if e.ResetSet? then Some(e.level) else None }
  function WaitOf(e: Event): Option<nat> { if e.Wait? then Some(e.ms) else None }
  function DcsOf(e: Event): Option<Event> { if e.Dcs? then Some(e) else None }
  function GetOf(e: Event): Option<Rail> { if e.RegulatorGet? then Some(e.supply) else None }

  /** Rails enabled, in call order. */
  function Enables(t: seq<Event>): seq<Rail> { Keep(t, EnableOf) }
  /** Rails disabled, in call order. */
  function Disables(t: seq<Event>): seq<Rail> { Keep(t, DisableOf) }
  /** Levels driven on the reset line, in call order. */
  function ResetLevels(t: seq<Event>): seq<int> { Keep(t, ResetOf) }
  /** Wait durations, in call order. */
  function Waits(t: seq<Event>): seq<nat> { Keep(t, WaitOf) }
  /** DCS writes, in call order. */
  function LinkWrites(t: seq<Event>): seq<Event> { Keep(t, DcsOf) }
  /** Supplies looked up, in call order. */
  function Lookups(t: seq<Event>): seq<Rail> { Keep(t, GetOf) }

  function Sum(s: seq<nat>): nat
    decreases |s|
  {
    if |s| == 0 then 0 else s[0] + Sum(s[1..])
  }

  /** Total time spent waiting in a trace. */
  function TotalWait(t: seq<Event>): nat { Sum(Waits(t)) }

  /** Writes come in pairs: each write goes to link1 and is immediately
      followed by the same command and payload on link2. A sequence cut
      short may end on an unpaired link1 write. */
  predicate Mirrored(w: seq<Event>)
    decreases |w|
  {
    if |w| == 0 then true
    else
      && w[0].Dcs? && w[0].link == Link1
      && (|w| == 1 || (w[1] == OnLink2(w[0]) && Mirrored(w[2..])))
  }

  /** A mirrored sequence cut short is still mirrored. */
  lemma {:induction false} MirroredCut(w: seq<Event>, n: nat)
    requires n <= |w| && Mirrored(w)
    ensures Mirrored(w[..n])
    decreases n
  {
    if n >= 2 {
      assert w[..n][2..] == w[2..][..n - 2];
      MirroredCut(w[2..], n - 2);
    }
  }

  /** Cutting a trace short keeps a prefix of what `f` selects. */
  lemma KeepPrefix<U>(t: seq<Event>, n: nat, f: Event -> Option<U>)
    requires n <= |t|
    ensures |Keep(t[..n], f)| <= |Keep(t, f)|
    ensures Keep(t[..n], f) == Keep(t, f)[..|Keep(t[..n], f)|]
  {
    assert t == t[..n] + t[n..];
    KeepAppend(t[..n], t[n..], f);
  }

  /** A trace cut short from one whose writes are mirrored still has
      mirrored writes. */
  lemma MirroredPrefix(t: seq<Event>, n: nat)
    requires n <= |t| && Mirrored(LinkWrites(t))
    ensures Mirrored(LinkWrites(t[..n]))
  {
    KeepPrefix(t, n, DcsOf);
    MirroredCut(LinkWrites(t), |LinkWrites(t[..n])|);
  }

  /** How many references to `d` the trace takes and does not give back. */
  function DevHeld(t: seq<Event>, d: DeviceId): int
  {
    multiset(t)[DevGet(d)] as int - multiset(t)[DevPut(d)] as int
  }

  /** How many node references the trace takes and does not give back. */
  function NodeHeld(t: seq<Event>, n: NodeId): int
  {
    multiset(t)[NodeGet(n)] as int - multiset(t)[NodePut(n)] as int
  }

  /** Reference counts add up over consecutive parts of a trace. */
  lemma HeldAppend(a: seq<Event>, b: seq<Event>)
    ensures forall d: DeviceId :: DevHeld(a + b, d) == DevHeld(a, d) + DevHeld(b, d)
    ensures forall n: NodeId :: NodeHeld(a + b, n) == NodeHeld(a, n) + NodeHeld(b, n)
  {
    assert multiset(a + b) == multiset(a) + multiset(b);
  }
}
