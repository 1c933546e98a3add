/** The panel's single display mode (default_mode) and
    sharp_panel_get_modes, which hands a copy of it to the connector. */
module ModeDescriptor {
  import opened Trace

  /** Largest value of a C `int`. */
  const INT_MAX: int := 0x7fff_ffff

  function Abs(x: int): nat { if x < 0 then -x else x }

  /** C's `/` on `int`: the quotient truncated toward zero, so its
      magnitude is the quotient of the magnitudes and it is negative only
      when exactly one operand is. */
  function CDiv(a: int, b: int): (q: int)
    requires b != 0
    ensures Abs(q) == Abs(a) / Abs(b)
    ensures q < 0 ==> (a < 0) != (b < 0)
    ensures (a < 0) != (b < 0) ==> q <= 0
  {
    var m: int := NatDiv(Abs(a), Abs(b));
    if (a < 0) == (b < 0) then m else -m
  }

  function NatDiv(x: nat, y: nat): nat
    requires y > 0
  {
    x / y
  }

  /** C's division identity (section 6.5.5 of ISO/IEC 9899): the quotient
      times the divisor plus the remainder gives back the dividend, where
      the remainder is smaller than the divisor in magnitude and is zero or
      has the sign of the dividend. */
  predicate CQuotient(a: int, b: int, q: int)
  {
    var r := a - q * b;
    Abs(r) < Abs(b) && (r == 0 || (r < 0) == (a < 0))
  }

  /** CDiv meets C's division identity. */
  lemma CDivIdentity(a: int, b: int)
    requires b != 0
    ensures CQuotient(a, b, CDiv(a, b))
  {
    var m := Abs(a) / Abs(b);
    var k := Abs(a) % Abs(b);
    assert Abs(a) == m * Abs(b) + k;
    var q := CDiv(a, b);
    if b > 0 {
      assert a - q * b == (if a < 0 then -k else k);
    } else {
      assert q * b == -(q * Abs(b));
      assert a - q * b == (if a < 0 then -k else k);
    }
  }

  /** C's division identity has one solution, so it pins CDiv down. */
  lemma CDivUnique(a: int, b: int, q: int)
    requires b != 0 && CQuotient(a, b, q)
    ensures q == CDiv(a, b)
  {
    var s := if (a < 0) == (b < 0) then q else -q;
    SignedRemainder(a, b, q);
    NatQuotientUnique(Abs(a), Abs(b), s);
  }

  /** In magnitudes, a C quotient's remainder is what the quotient of
      the magnitudes leaves. */
  lemma SignedRemainder(a: int, b: int, q: int)
    requires b != 0 && CQuotient(a, b, q)
    ensures Abs(a) - (if (a < 0) == (b < 0) then q else -q) * Abs(b) == Abs(a - q * b)
  {
    if b < 0 {
      NegMul(q, Abs(b));
    }
  }

  lemma NegMul(q: int, y: int)
    ensures q * -y == -(q * y)
  {
  }

  /** The only s with 0 <= x - s * y < y is x / y. */
  lemma NatQuotientUnique(x: nat, y: nat, s: int)
    requires y > 0 && 0 <= x - s * y < y
    ensures s == x / y
  {
    var m := x / y;
    assert x == m * y + x % y;
    if s < m {
      MulAtLeast(m - s, y);
    } else if s > m {
      MulAtLeast(s - m, y);
    }
  }

  lemma MulAtLeast(n: int, y: nat)
    requires n >= 1
    ensures n * y >= y
  {
  }

  /** For operands that are not negative, C and Dafny divide alike. */
  lemma CDivNatural(a: nat, b: nat)
    requires b > 0
    ensures CDiv(a, b) == a / b
  {
  }

  /** How a mode is marked (DRM_MODE_TYPE_*). */
  datatype ModeKind = Driver | Preferred

  /** The fields of struct drm_display_mode that the driver sets. */
  datatype DisplayMode = DisplayMode(
    clock: int,             // pixel clock in kHz
    hdisplay: int, hsyncStart: int, hsyncEnd: int, htotal: int,
    vdisplay: int, vsyncStart: int, vsyncEnd: int, vtotal: int,
    widthMm: int, heightMm: int,
    kinds: set<ModeKind>)

  /** default_mode: 1536x2048 active, blanking added on top, 60 frames per
      second, clock in kHz computed with C integer division. */
  const DefaultMode: DisplayMode := DisplayMode(
    clock := CDiv((1536 + 136 + 28 + 28) * (2048 + 14 + 8 + 2) * 60, 1000),
    hdisplay := 1536,
    hsyncStart := 1536 + 136,
    hsyncEnd := 1536 + 136 + 28,
    htotal := 1536 + 136 + 28 + 28,
    vdisplay := 2048,
    vsyncStart := 2048 + 14,
    vsyncEnd := 2048 + 14 + 8,
    vtotal := 2048 + 14 + 8 + 2,
    widthMm := 120,
    heightMm := 160,
    kinds := {})

  /** The timings are well formed: display, sync start, sync end and total
      strictly increase in both directions, from the 1536 x 2048 active
      area to the totals 1728 x 2072. */
  lemma DefaultModeTimings()
    ensures DefaultMode.hdisplay == 1536 && DefaultMode.vdisplay == 2048
    ensures DefaultMode.htotal == 1728 && DefaultMode.vtotal == 2072
    ensures DefaultMode.hdisplay < DefaultMode.hsyncStart < DefaultMode.hsyncEnd < DefaultMode.htotal
    ensures DefaultMode.vdisplay < DefaultMode.vsyncStart < DefaultMode.vsyncEnd < DefaultMode.vtotal
    ensures DefaultMode.widthMm == 120 && DefaultMode.heightMm == 160
  {
  }

  /** The clock is 214824 kHz: the 60 Hz pixel rate 1728 * 2072 * 60,
      truncated to whole kHz. The product fits in a C `int`, and the
      truncation puts the frame rate just under 60 Hz but above 59 Hz. */
  lemma DefaultModeClock()
    ensures DefaultMode.clock == 214824
    ensures DefaultMode.htotal * DefaultMode.vtotal * 60 <= INT_MAX
    ensures DefaultMode.clock * 1000 <= DefaultMode.htotal * DefaultMode.vtotal * 60
            < (DefaultMode.clock + 1) * 1000
    ensures 59 * (DefaultMode.htotal * DefaultMode.vtotal) < DefaultMode.clock * 1000
            < 60 * (DefaultMode.htotal * DefaultMode.vtotal)
  {
    CDivNatural(214824960, 1000);
    assert 1728 * 2072 * 60 == 214824960;
  }

  /** What the connector holds: its probed modes and its physical size. */
  datatype Connector = Connector(modes: seq<DisplayMode>, widthMm: int, heightMm: int)

  /** Return value of get_modes, and the connector afterwards. */
  datatype ModesResult = ModesResult(count: int, connector: Connector)

  /** sharp_panel_get_modes. `duplicated` says whether drm_mode_duplicate
      could allocate the copy. On success it adds one copy of the default
      mode, marked as the driver's preferred mode, sets the connector's
      physical size from it and returns 1, the number of modes added; on
      failure it returns -ENOMEM and leaves the connector alone. */
  function GetModes(duplicated: bool, c: Connector): (r: ModesResult)
    ensures r.count == 1 <==> duplicated
    ensures r.count == -ENOMEM <==> !duplicated
    ensures r.count < 0 ==> r.connector == c
    ensures r.count >= 0 ==>
      && |r.connector.modes| == |c.modes| + r.count
      && r.connector.modes[..|c.modes|] == c.modes
    ensures r.count == 1 ==>
      var m := r.connector.modes[|c.modes|];
      && m.kinds == {Driver, Preferred}
      && m.(kinds := {}) == DefaultMode
      && r.connector.widthMm == m.widthMm == 120
      && r.connector.heightMm == m.heightMm == 160
  {
    if !duplicated then ModesResult(-ENOMEM, c)
    else
      var m := DefaultMode.(kinds := {Driver, Preferred});
      ModesResult(1, Connector(c.modes + [m], m.widthMm, m.heightMm))
  }
}
