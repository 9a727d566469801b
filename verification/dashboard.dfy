/** frontend/src/pages/Dashboard.jsx: one selected defect shared by the list,
    the map and the detail panel. */
module Dashboard {
  import opened Wrappers
  import opened Records
  import Details
  import DefectList
  import MapView

  const ImagePlaceholder: string := "https://via.placeholder.com/300x200?text=No+Image"

  /** `selectedDefect?.id`: undefined when nothing is selected. */
  function SelectedId(selected: Option<Defect>): (r: Option<int>)
    ensures r.Some? <==> selected.Some?
    ensures r.Some? ==> r.value == selected.value.id
  {
    if selected.Some? then Some(selected.value.id) else None
  }

  /** The whole page for a list and a selection. */
  datatype View = View(list: DefectList.ListView, center: MapView.Position, panel: Option<Details.Panel>)

  function Render(defects: seq<Defect>, selected: Option<Defect>): (v: View)
    ensures v.panel.Some? <==> selected.Some?
    ensures v.list == DefectList.List(defects, SelectedId(selected))
    ensures v.center == MapView.Center(defects, selected)
    ensures v.panel.Some? ==> v.panel.value == Details.PanelOf(selected.value, ImagePlaceholder)
  {
    View(DefectList.List(defects, SelectedId(selected)),
         MapView.Center(defects, selected),
         if selected.Some? then Some(Details.PanelOf(selected.value, ImagePlaceholder)) else None)
  }

  /** Selecting the defect at `k` (a click on its card or marker) of a list
      with distinct ids marks exactly its card, centres the map on it and
      opens its panel; the close button (selection `null`) removes every
      mark and the panel. */
  lemma SelectionIsShared(defects: seq<Defect>, k: nat)
    requires k < |defects|
    requires forall i, j :: 0 <= i < j < |defects| ==> defects[i].id != defects[j].id
    ensures var v := Render(defects, Some(defects[k]));
            && (forall i :: 0 <= i < |defects| ==> (v.list.cards[i].selected <==> i == k))
            && v.center == MapView.PositionOf(defects[k])
            && v.panel.Some?
    ensures var v := Render(defects, None);
            && v.panel.None?
            && (forall i :: 0 <= i < |defects| ==> !v.list.cards[i].selected)
  {
    DefectList.OneSelectedCard(defects, k);
  }

  /** A stored image path (not starting with "http") shows the placeholder. */
  lemma LocalImageShowsPlaceholder(d: Defect)
    requires |d.imageUrl| >= 4 && d.imageUrl[..4] != "http"
    ensures Render([d], Some(d)).panel.value.imageSrc == ImagePlaceholder
  {
  }
}
