/** frontend/src/components/DefectList.jsx: the sidebar list of live
    detections. */
module DefectList {
  import opened Wrappers
  import opened Records

  /** One card: the defect's id (the React key) and its two class markers. */
  datatype Card = Card(id: int, selected: bool, critical: bool)

  /** The list shows a placeholder when empty, otherwise one card per defect. */
  datatype ListView = Placeholder | Cards(cards: seq<Card>)

  /** `selectedId === defect.id`; an undefined `selectedId` matches nothing. */
  predicate IsSelected(selectedId: Option<int>, d: Defect) {
    selectedId == Some(d.id)
  }

  function CardOf(d: Defect, selectedId: Option<int>): Card {
    Card(d.id, IsSelected(selectedId, d), d.severity == "Critical")
  }

  /** The list: the placeholder iff there are no defects, otherwise a card
      for each defect in list order carrying its id and markers. */
  function List(defects: seq<Defect>, selectedId: Option<int>): (v: ListView)
    ensures v.Placeholder? <==> |defects| == 0
    ensures v.Cards? ==> |v.cards| == |defects|
    ensures v.Cards? ==> forall i :: 0 <= i < |defects| ==>
              && v.cards[i].id == defects[i].id
              && (v.cards[i].selected <==> selectedId == Some(defects[i].id))
              && (v.cards[i].critical <==> defects[i].severity == "Critical")
  {
    if |defects| == 0 then Placeholder
    else Cards(seq(|defects|, i requires 0 <= i < |defects| => CardOf(defects[i], selectedId)))
  }

  /** When ids are distinct and the selection is the defect at `k`, exactly
      the card at `k` is marked selected; with no selection none is. */
  lemma OneSelectedCard(defects: seq<Defect>, k: nat)
    requires k < |defects|
    requires forall i, j :: 0 <= i < j < |defects| ==> defects[i].id != defects[j].id
    ensures var v := List(defects, Some(defects[k].id));
            forall i :: 0 <= i < |defects| ==> (v.cards[i].selected <==> i == k)
    ensures var v := List(defects, None);
            forall i :: 0 <= i < |defects| ==> !v.cards[i].selected
  {
  }
}
