/** The dashboard's top-level state (App.tsx): which constellations are drawn,
    which one is focused, which satellite is shown in the info card and whether
    the constellation panel is open. The React state setters are the methods of
    the class below; the updater expressions they are given are functions. */
module App {
  import opened Wrappers
  import opened Sequences
  import opened Types
  import opened SatelliteData

  // ---------------------------------------------------------------- updater expressions

  /** `prev.filter(c => c !== id)`. */
  function RemoveAll(prev: seq<string>, id: string): (r: seq<string>)
    ensures id !in r
    ensures forall x :: x != id ==> (x in r <==> x in prev)
    ensures IsSubsequence(r, prev)
    ensures id !in prev ==> r == prev
  {
    var r := Filter(prev, (c: string) => c != id);
    if id !in prev then
      FilterAll(prev, (c: string) => c != id);
      r
    else r
  }

  /** The visibility toggle: drop every occurrence of a visible id, append an invisible one. */
  function Toggled(prev: seq<string>, id: string): (r: seq<string>)
    ensures id in r <==> id !in prev
    ensures forall x :: x != id ==> (x in r <==> x in prev)
    ensures id in prev ==> IsSubsequence(r, prev)
    ensures id !in prev ==> |r| == |prev| + 1 && r[..|prev|] == prev && r[|prev|] == id
  {
    if id in prev then RemoveAll(prev, id) else prev + [id]
  }

  /** Removing a visible id keeps every occurrence of every other id and drops all of its own. */
  lemma ToggleRemovesOccurrences(prev: seq<string>, id: string, x: string)
    requires id in prev
    ensures multiset(Toggled(prev, id))[x] == if x == id then 0 else multiset(prev)[x]
  {
    FilterMultiset(prev, (c: string) => c != id, x);
  }

  /** Toggling an invisible id twice restores the list. */
  lemma ToggleTwiceRestores(prev: seq<string>, id: string)
    requires id !in prev
    ensures Toggled(Toggled(prev, id), id) == prev
  {
    var once := prev + [id];
    assert Toggled(prev, id) == once;
    var p := (c: string) => c != id;
    FilterAll(prev, p);
    FilterAppend(prev, [id], p);
    assert Filter([id], p) == [];
  }

  /** JavaScript truthiness of a `string | null`: `null` and `""` are false. */
  predicate Truthy(id: Option<string>) {
    id.Some? && id.value != ""
  }

  /** The visibility list after selecting `id`: a truthy id not yet visible is appended. */
  function VisibleAfterSelect(visible: seq<string>, id: Option<string>): (r: seq<string>)
    ensures Truthy(id) ==> id.value in r
    ensures Truthy(id) && id.value !in visible ==> r == visible + [id.value]
    ensures !(Truthy(id) && id.value !in visible) ==> r == visible
  {
    if Truthy(id) && id.value !in visible then visible + [id.value] else visible
  }

  /** The panel's click on a constellation name: clicking the focused one passes `null`. */
  function PanelChoice(selected: Option<string>, clicked: string): (r: Option<string>)
    ensures r.None? <==> selected == Some(clicked)
    ensures r.Some? ==> r.value == clicked
  {
    if selected == Some(clicked) then None else Some(clicked)
  }

  /** Clicking the same name twice focuses it and then clears the focus, and it stays visible. */
  lemma PanelClickTwice(visible: seq<string>, selected: Option<string>, clicked: string)
    requires selected != Some(clicked) && clicked != ""
    ensures var first := PanelChoice(selected, clicked);
      var shown := VisibleAfterSelect(visible, first);
      && first == Some(clicked)
      && PanelChoice(first, clicked) == None
      && VisibleAfterSelect(shown, None) == shown
      && clicked in shown
  {
  }

  /** The initial visibility list is every table identifier in table order. */
  lemma InitiallyAllVisible()
    ensures ConstellationIds(Constellations) == ["gps", "starlink", "sbirs", "wgs", "nro"]
    ensures forall c :: c in Constellations ==> c.id in ConstellationIds(Constellations)
  {
    ConstellationTable();
    forall c | c in Constellations
      ensures c.id in ConstellationIds(Constellations)
    {
      var i :| 0 <= i < |Constellations| && Constellations[i] == c;
      assert ConstellationIds(Constellations)[i] == c.id;
    }
  }

  // ---------------------------------------------------------------- component state

  class AppState {
    var isPanelOpen: bool
    var visibleConstellations: seq<string>
    var selectedConstellation: Option<string>
    var selectedSatellite: Option<Satellite>

    /** Every constellation visible in table order, nothing selected, panel open. */
    constructor ()
      ensures isPanelOpen
      ensures visibleConstellations == ConstellationIds(Constellations)
      ensures selectedConstellation == None && selectedSatellite == None
    {
      isPanelOpen := true;
      visibleConstellations := ConstellationIds(Constellations);
      selectedConstellation := None;
      selectedSatellite := None;
    }

    /** handleToggleConstellation, called from a toggle in the panel, which is only drawn while open. */
    method ToggleConstellation(id: string)
      requires isPanelOpen
      modifies this
      ensures visibleConstellations == Toggled(old(visibleConstellations), id)
      ensures isPanelOpen == old(isPanelOpen)
      ensures selectedConstellation == old(selectedConstellation)
      ensures selectedSatellite == old(selectedSatellite)
    {
      visibleConstellations := Toggled(visibleConstellations, id);
    }

    /** handleSelectConstellation: focus `id` and, when it is truthy, make sure it is visible. */
    method SelectConstellation(id: Option<string>)
      modifies this
      ensures selectedConstellation == id
      ensures visibleConstellations == VisibleAfterSelect(old(visibleConstellations), id)
      ensures isPanelOpen == old(isPanelOpen)
      ensures selectedSatellite == old(selectedSatellite)
    {
      selectedConstellation := id;
      if Truthy(id) {
        if id.value !in visibleConstellations {
          visibleConstellations := visibleConstellations + [id.value];
        }
      }
    }

    /** A click on a constellation's name in the panel, which is only drawn while open. */
    method ClickConstellationName(clicked: string)
      requires isPanelOpen
      modifies this
      ensures selectedConstellation == PanelChoice(old(selectedConstellation), clicked)
      ensures visibleConstellations
        == VisibleAfterSelect(old(visibleConstellations), PanelChoice(old(selectedConstellation), clicked))
      ensures isPanelOpen && selectedSatellite == old(selectedSatellite)
    {
      SelectConstellation(PanelChoice(selectedConstellation, clicked));
    }

    /** The header button: `setIsPanelOpen(!isPanelOpen)`. */
    method TogglePanel()
      modifies this
      ensures isPanelOpen == !old(isPanelOpen)
      ensures visibleConstellations == old(visibleConstellations)
      ensures selectedConstellation == old(selectedConstellation)
      ensures selectedSatellite == old(selectedSatellite)
    {
      isPanelOpen := !isPanelOpen;
    }

    /** setSelectedSatellite: a satellite click passes the satellite, a click on empty
        space and the info card's close button pass `null`. */
    method SelectSatellite(s: Option<Satellite>)
      modifies this
      ensures selectedSatellite == s
      ensures isPanelOpen == old(isPanelOpen)
      ensures visibleConstellations == old(visibleConstellations)
      ensures selectedConstellation == old(selectedConstellation)
    {
      selectedSatellite := s;
    }
  }
}
