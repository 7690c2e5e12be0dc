/** Which display mode is chosen: the highest refresh rate, then the largest area, then the preferred one,
    then the highest pixel clock; the first in the list among equals. */
module ModeChoice {
  import opened Arithmetic
  import opened Wrappers
  import Text

  type Word16 = n: nat | n < 0x1_0000
  type Word32 = n: nat | n < 0x1_0000_0000

  datatype Mode = Mode(
    refresh: Word32, clock: Word32, hdisplay: Word16, vdisplay: Word16, htotal: Word16, vtotal: Word16,
    preferred: bool)

  /** Where C gives the rate a meaning: computing it from the timings overflows neither the product of the
      totals nor the cast of the quotient to int. */
  predicate InRange(m: Mode) {
    m.refresh == 0 && m.htotal != 0 && m.vtotal != 0 ==>
      && m.htotal * m.vtotal < 0x8000_0000
      && m.clock * 1000 < 0x7fff_ffff * (m.htotal * m.vtotal)
  }

  /** The rate in Hz: as reported (cast to int), else from the clock in kHz and the size of the whole frame,
      rounded to the nearest; 0 when that is not known either.  Over exact reals. */
  function Refresh(m: Mode): int {
    if m.refresh != 0 then Text.Truncated(m.refresh)
    else if m.htotal != 0 && m.vtotal != 0 then
      Positive(m.htotal, m.vtotal);
      Rounded(Quotient(m.clock * 1000, m.htotal * m.vtotal))
    else 0
  }

  lemma Positive(a: nat, b: nat)
    requires a != 0 && b != 0
    ensures a * b > 0
  {
  }

  function Area(m: Mode): nat { m.hdisplay * m.vdisplay }

  predicate Better(a: Mode, b: Mode) {
    if Refresh(a) != Refresh(b) then Refresh(a) > Refresh(b)
    else if Area(a) != Area(b) then Area(a) > Area(b)
    else if a.preferred != b.preferred then a.preferred
    else a.clock > b.clock
  }

  /** A rate computed from the timings is the nearest whole number of Hz, and fits an int. */
  lemma RefreshIsNearest(m: Mode)
    requires InRange(m)
    ensures -0x8000_0000 <= Refresh(m) < 0x8000_0000
    ensures 0 < m.refresh < 0x8000_0000 ==> Refresh(m) == m.refresh
    ensures m.refresh == 0 && (m.htotal == 0 || m.vtotal == 0) ==> Refresh(m) == 0
    ensures m.refresh == 0 && m.htotal != 0 && m.vtotal != 0 ==>
              var pixels, hz := m.htotal * m.vtotal, Refresh(m);
              2 * pixels * hz <= 2 * (m.clock * 1000) + pixels < 2 * pixels * hz + 2 * pixels
  {
    if m.refresh == 0 && m.htotal != 0 && m.vtotal != 0 {
      Positive(m.htotal, m.vtotal);
      RateIsNearest(m.clock * 1000, m.htotal * m.vtotal);
    }
  }

  lemma RateIsNearest(a: nat, pixels: nat)
    requires pixels > 0 && a < 0x7fff_ffff * pixels
    ensures var hz := Rounded(Quotient(a, pixels));
            && 2 * pixels * hz <= 2 * a + pixels < 2 * pixels * hz + 2 * pixels
            && hz < 0x8000_0000
  {
    QuotientTimes(a, pixels);
    RoundedQuotient(Quotient(a, pixels), a, pixels);
    NearestIs(a, pixels, Nearest(a, pixels));
    NearestBounded(a, pixels, 0x7fff_ffff);
  }

  // ---------- an order to choose by ----------

  /** The four criteria as one tuple, most important first. */
  function Rank(m: Mode): seq<int> {
    [Refresh(m), m.hdisplay * m.vdisplay, if m.preferred then 1 else 0, m.clock]
  }

  /** Comparison by the first position where two ranks differ. */
  predicate Precedes(a: seq<int>, b: seq<int>, from: nat)
    requires |a| == |b| == 4 && from <= 4
    decreases 4 - from
  {
    if from == 4 then false
    else if a[from] != b[from] then a[from] > b[from]
    else Precedes(a, b, from + 1)
  }

  lemma BetterIsLexicographic(a: Mode, b: Mode)
    ensures Better(a, b) <==> Precedes(Rank(a), Rank(b), 0)
  {
    assert Precedes(Rank(a), Rank(b), 4) == false;
    assert Precedes(Rank(a), Rank(b), 3) == (a.clock > b.clock);
  }

  predicate SameRank(a: Mode, b: Mode) { !Better(a, b) && !Better(b, a) }

  /** better_mode is a strict weak order: irreflexive, transitive, and being of the same rank is transitive
      (so any two modes compare through a third). */
  lemma BetterIsStrictWeakOrder(a: Mode, b: Mode, c: Mode)
    ensures !Better(a, a)
    ensures Better(a, b) ==> !Better(b, a)
    ensures Better(a, b) && Better(b, c) ==> Better(a, c)
    ensures SameRank(a, b) && SameRank(b, c) ==> SameRank(a, c)
    ensures Better(a, c) ==> Better(a, b) || Better(b, c)
    ensures SameRank(a, b) <==> Rank(a) == Rank(b)
  {
    assert SameRank(a, b) ==> Refresh(a) == Refresh(b) && Area(a) == Area(b);
  }

  // ---------- the loops ----------

  /** Mode k is as good as any, and strictly better than those listed before it. */
  ghost predicate IsChoice(modes: seq<Mode>, k: nat)
    requires k < |modes|
  {
    && (forall j :: 0 <= j < |modes| ==> !Better(modes[j], modes[k]))
    && (forall j :: 0 <= j < k ==> Better(modes[k], modes[j]))
  }

  lemma ChoiceIsUnique(modes: seq<Mode>, j: nat, k: nat)
    requires j < |modes| && k < |modes| && IsChoice(modes, j) && IsChoice(modes, k)
    ensures j == k
  {
    assert !Better(modes[k], modes[j]) && !Better(modes[j], modes[k]);
  }

  /** No other mode refreshes faster than the choice. */
  lemma ChoiceIsFastest(modes: seq<Mode>, k: nat, j: nat)
    requires j < |modes| && k < |modes| && IsChoice(modes, k)
    ensures Refresh(modes[j]) <= Refresh(modes[k])
    ensures Refresh(modes[j]) == Refresh(modes[k]) ==>
              modes[j].hdisplay * modes[j].vdisplay <= modes[k].hdisplay * modes[k].vdisplay
  {
    assert !Better(modes[j], modes[k]);
  }

  method BestMode(modes: seq<Mode>) returns (best: Mode)
    requires modes != []
    requires forall m <- modes :: InRange(m)
    ensures exists k: nat :: k < |modes| && best == modes[k] && IsChoice(modes, k)
  {
    best := modes[0];
    ghost var k: nat := 0;
    for m := 1 to |modes|
      invariant k < m && best == modes[k]
      invariant IsChoice(modes[..m], k)
    {
      if Better(modes[m], best) {
        ChoiceMoves(modes, m, k);
        best, k := modes[m], m;
      } else {
        assert modes[..m + 1] == modes[..m] + [modes[m]];
      }
    }
    assert modes[..|modes|] == modes;
  }

  lemma ChoiceMoves(modes: seq<Mode>, m: nat, k: nat)
    requires k < m < |modes| && IsChoice(modes[..m], k) && Better(modes[m], modes[k])
    ensures IsChoice(modes[..m + 1], m)
  {
    var s := modes[..m + 1];
    forall j | 0 <= j < m ensures Better(s[m], s[j]) && !Better(s[j], s[m]) {
      assert !Better(modes[..m][j], modes[..m][k]);
      BetterIsStrictWeakOrder(s[m], s[j], s[k]);
      BetterIsStrictWeakOrder(s[j], s[m], s[k]);
    }
    BetterIsStrictWeakOrder(s[m], s[m], s[m]);
  }

  /** wanted: the name asked for is empty or this connector's; hasCrtc: some CRTC can drive it. */
  datatype Connector = Connector(connected: bool, wanted: bool, modes: seq<Mode>, hasCrtc: bool)

  predicate Usable(c: Connector) { c.connected && c.modes != [] && c.wanted && c.hasCrtc }

  datatype Output = Output(connector: nat, mode: Mode)

  /** The first usable connector with the choice among its own modes, whatever was looked at before; nothing
      exactly when no connector is usable. */
  method ChooseOutput(connectors: seq<Connector>) returns (out: Option<Output>)
    requires forall c <- connectors, m <- c.modes :: InRange(m)
    ensures out.None? <==>
              forall c <- connectors :: !(c.connected && c.wanted && c.hasCrtc && c.modes != [])
    ensures out.Some? ==>
              var i := out.value.connector;
              && i < |connectors| && connectors[i].connected && connectors[i].wanted && connectors[i].hasCrtc
              && connectors[i].modes != []
              && (forall j :: 0 <= j < i ==> !Usable(connectors[j]))
              && exists k: nat :: k < |connectors[i].modes| && out.value.mode == connectors[i].modes[k]
                                  && IsChoice(connectors[i].modes, k)
  {
    for i := 0 to |connectors|
      invariant forall j :: 0 <= j < i ==> !Usable(connectors[j])
    {
      var c := connectors[i];
      if c.connected && c.modes != [] && c.wanted {
        var best := BestMode(c.modes);
        if c.hasCrtc {
          assert c in connectors && Usable(c);
          return Some(Output(i, best));
        }
      }
    }
    out := None;
  }
}
