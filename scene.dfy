/** The 3D scene's choice of what to draw (Scene.tsx): the satellites of the
    visible constellations, and which of them is highlighted as selected. */
module Scene {
  import opened Wrappers
  import opened Sequences
  import opened Types
  import opened SatelliteData

  /** `satellites.filter(s => visibleConstellations.includes(s.constellation))`. */
  function VisibleSatellites(sats: seq<Satellite>, visible: seq<string>): (r: seq<Satellite>)
    ensures forall s :: s in r <==> s in sats && s.constellation in visible
    ensures IsSubsequence(r, sats)
    ensures |r| <= |sats|
  {
    var r := Filter(sats, (s: Satellite) => s.constellation in visible);
    SubsequenceLength(r, sats);
    r
  }

  /** With every constellation of the list visible, every satellite is drawn. */
  lemma AllVisible(sats: seq<Satellite>, visible: seq<string>)
    requires forall i :: 0 <= i < |sats| ==> sats[i].constellation in visible
    ensures VisibleSatellites(sats, visible) == sats
  {
    FilterAll(sats, (s: Satellite) => s.constellation in visible);
  }

  /** With no constellation visible, nothing is drawn. */
  lemma NoneVisible(sats: seq<Satellite>)
    ensures VisibleSatellites(sats, []) == []
  {
    FilterNone(sats, (s: Satellite) => s.constellation in []);
  }

  /** At start-up, with every table constellation visible, the whole generated list is drawn. */
  lemma InitialSceneShowsAll(random: nat -> real)
    ensures VisibleSatellites(Generated(random), ConstellationIds(Constellations)) == Generated(random)
  {
    var sats := Generated(random);
    ConstellationTable();
    GeneratedBlocks(random);
    forall i | 0 <= i < |sats|
      ensures sats[i].constellation in ConstellationIds(Constellations)
    {
      assert sats[i].constellation == BlockConstellation(i);
    }
    AllVisible(sats, ConstellationIds(Constellations));
  }

  /** `selectedSatellite?.id === satellite.id`: with nothing selected the optional chain gives
      `undefined`, which equals no identifier; a selected satellite highlights itself. */
  predicate IsSelected(selected: Option<Satellite>, s: Satellite): (b: bool)
    ensures selected.None? ==> !b
    ensures selected == Some(s) ==> b
  {
    selected.Some? && selected.value.id == s.id
  }

  /** Among satellites with distinct identifiers at most one is highlighted. */
  lemma AtMostOneSelected(sats: seq<Satellite>, selected: Option<Satellite>, i: nat, j: nat)
    requires forall a, b :: 0 <= a < |sats| && 0 <= b < |sats| && a != b ==> sats[a].id != sats[b].id
    requires i < |sats| && j < |sats| && i != j
    requires IsSelected(selected, sats[i])
    ensures !IsSelected(selected, sats[j])
  {
    assert sats[i].id != sats[j].id;
  }

  /** In the generated list the highlight falls on exactly one satellite when a generated one is selected. */
  lemma GeneratedSelectionUnique(random: nat -> real, k: nat, i: nat)
    requires k < |Generated(random)| && i < |Generated(random)|
    ensures IsSelected(Some(Generated(random)[k]), Generated(random)[i]) <==> i == k
  {
    GeneratedIdsDistinct(random);
  }
}
