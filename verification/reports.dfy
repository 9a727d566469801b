/** frontend/src/pages/Reports.jsx: the search and filter predicate over the
    defect list, the resolve and reopen handlers, the status label and the
    choice of action button. The PATCH requests and the page reload are
    outcomes in the returned record. */
module Reports {
  import opened Wrappers
  import opened Text
  import opened Seqs
  import opened Records
  import Details

  /** The three filter controls. */
  datatype Filters = Filters(searchTerm: string, severity: string, status: string)

  const AllOption: string := "All"

  /** The controls when the page opens. */
  const InitialFilters: Filters := Filters("", AllOption, AllOption)

  /** `matchesSearch`: the lower-cased term occurs in the lower-cased type, or
      in the lower-cased station when there is one. */
  predicate MatchesSearch(d: Defect, term: string) {
    || Contains(Lower(d.defectType), Lower(term))
    || (d.nearestStation.Some? && Contains(Lower(d.nearestStation.value), Lower(term)))
  }

  /** The three tests of the `filteredDefects` callback. */
  predicate Matches(d: Defect, f: Filters) {
    && MatchesSearch(d, f.searchTerm)
    && (f.severity == AllOption || d.severity == f.severity)
    && (f.status == AllOption || d.status == Some(f.status))
  }

  /** `filteredDefects`: the defects that match, in list order. */
  function FilteredDefects(defects: seq<Defect>, f: Filters): (r: seq<Defect>)
    ensures IsSubsequence(r, defects)
    ensures forall i :: 0 <= i < |r| ==> Matches(r[i], f)
    ensures forall i :: 0 <= i < |defects| ==>
              multiset(r)[defects[i]] == if Matches(defects[i], f) then multiset(defects)[defects[i]] else 0
  {
    var keep := (d: Defect) => Matches(d, f);
    FilterIsSubsequence(defects, keep);
    Filter(defects, keep)
  }

  /** An empty search term matches every defect. */
  lemma EmptySearchMatchesAll(d: Defect)
    ensures MatchesSearch(d, "")
  {
    assert Lower("") == "";
    ContainsEmpty(Lower(d.defectType));
  }

  /** With the initial controls every defect is listed. */
  lemma InitialFiltersKeepAll(defects: seq<Defect>)
    ensures FilteredDefects(defects, InitialFilters) == defects
  {
    forall i | 0 <= i < |defects|
      ensures Matches(defects[i], InitialFilters)
    {
      EmptySearchMatchesAll(defects[i]);
    }
    FilterAll(defects, (d: Defect) => Matches(d, InitialFilters));
  }

  /** Search ignores the case of the term. */
  lemma SearchIgnoresTermCase(d: Defect, term: string)
    ensures MatchesSearch(d, Lower(term)) <==> MatchesSearch(d, term)
  {
    LowerIdempotent(term);
  }

  /** Without a station only the type is searched. */
  lemma MissingStationSearchesType(d: Defect, term: string)
    requires d.nearestStation.None?
    ensures MatchesSearch(d, term) <==> Contains(Lower(d.defectType), Lower(term))
  {
  }

  // ---------------------------------------------------------------------
  // Status and actions.
  // ---------------------------------------------------------------------

  /** `defect.status || 'Open'`. */
  function StatusLabel(d: Defect): (r: string)
    ensures TruthyText(d.status) ==> r == d.status.value
    ensures !TruthyText(d.status) ==> r == "Open"
  {
    OrText(d.status, "Open")
  }

  datatype Action = MarkResolved | Reopen | NoAction

  /** The detail panel's button as written: Mark as Resolved for status
      "Open", otherwise Reopen for an admin and nothing for anyone else. */
  function ActionFor(selected: Defect, user: Option<User>): (a: Action)
    ensures a == MarkResolved <==> selected.status == Some("Open")
    ensures a == Reopen <==> selected.status != Some("Open") && IsAdmin(user)
    ensures a == NoAction <==> selected.status != Some("Open") && !IsAdmin(user)
  {
    if selected.status == Some("Open") then MarkResolved
    else if IsAdmin(user) then Reopen
    else NoAction
  }

  /** As written, a defect without a status is labelled "Open", yet it gets
      no Mark as Resolved button (an admin is offered Reopen) and the "Open"
      status filter hides it. */
  lemma MissingStatusAsWritten(d: Defect, user: Option<User>)
    requires d.status.None?
    ensures StatusLabel(d) == "Open"
    ensures ActionFor(d, user) != MarkResolved
    ensures IsAdmin(user) ==> ActionFor(d, user) == Reopen
    ensures !Matches(d, Filters("", AllOption, "Open"))
  {
  }

  /** The evidently intended button: decided on the status as labelled. */
  function ActionForLabel(selected: Defect, user: Option<User>): (a: Action)
    ensures a == MarkResolved <==> StatusLabel(selected) == "Open"
    ensures a == Reopen <==> StatusLabel(selected) != "Open" && IsAdmin(user)
    ensures TruthyText(selected.status) ==> a == ActionFor(selected, user)
  {
    if StatusLabel(selected) == "Open" then MarkResolved
    else if IsAdmin(user) then Reopen
    else NoAction
  }

  /** With the intended rule the button always agrees with the label. */
  lemma LabelAndActionAgree(d: Defect, user: Option<User>)
    ensures StatusLabel(d) == "Open" ==> ActionForLabel(d, user) == MarkResolved
    ensures StatusLabel(d) != "Open" ==> ActionForLabel(d, user) != MarkResolved
    ensures d.status.None? ==> ActionForLabel(d, user) == MarkResolved
  {
  }

  // ---------------------------------------------------------------------
  // Handlers.
  // ---------------------------------------------------------------------

  datatype ReportsState = ReportsState(selected: Option<Defect>, resolving: bool, reopening: bool)

  /** The PATCH a handler sends. */
  datatype Patch = ResolvePatch(id: int) | ReopenPatch(id: int)

  /** What a handler did: the state afterwards, the request sent, whether the
      page reloads, and the text of the alert shown on failure. */
  datatype Handled = Handled(state: ReportsState, request: Option<Patch>, reload: bool, alertText: Option<string>)

  /** `handleMarkResolved` (`reopen` false) and `handleReopen` (`reopen`
      true). `outcome` is the PATCH's result; its error carries the server's
      `detail`, if any. */
  function Handle(s: ReportsState, reopen: bool, outcome: Result<(), Option<string>>): (h: Handled)
    ensures s.selected.None? ==> h == Handled(s, None, false, None)
    ensures s.selected.Some? ==>
              && h.request == Some(if reopen then ReopenPatch(s.selected.value.id) else ResolvePatch(s.selected.value.id))
              && (if reopen then !h.state.reopening && h.state.resolving == s.resolving
                  else !h.state.resolving && h.state.reopening == s.reopening)
              && (h.reload <==> outcome.Ok?)
              && (h.alertText.Some? <==> outcome.Err?)
    ensures s.selected.Some? && outcome.Ok? ==>
              h.state.selected == Some(s.selected.value.(status := Some(if reopen then "Open" else "Resolved")))
    ensures s.selected.Some? && outcome.Err? ==>
              && h.state.selected == s.selected
              && h.alertText.value == OrText(outcome.error,
                   if reopen then "Failed to reopen defect" else "Failed to mark defect as resolved")
  {
    match s.selected
    case None => Handled(s, None, false, None)
    case Some(d) =>
      var patch := if reopen then ReopenPatch(d.id) else ResolvePatch(d.id);
      var done := if reopen then s.(reopening := false) else s.(resolving := false);
      match outcome
      case Ok(_) =>
        var status := if reopen then "Open" else "Resolved";
        Handled(done.(selected := Some(d.(status := Some(status)))), Some(patch), true, None)
      case Err(detail) =>
        var fallback := if reopen then "Failed to reopen defect" else "Failed to mark defect as resolved";
        Handled(done, Some(patch), false, Some(OrText(detail, fallback)))
  }

  /** Each handler's `finally` clears only its own flag: a reopen that
      finishes while a resolve is pending leaves the resolve pending. */
  lemma HandlerClearsOwnFlag(d: Defect, outcome: Result<(), Option<string>>)
    ensures var h := Handle(ReportsState(Some(d), true, true), true, outcome);
            h.state.resolving && !h.state.reopening
    ensures var h := Handle(ReportsState(Some(d), true, true), false, outcome);
            !h.state.resolving && h.state.reopening
  {
  }

  const ImagePlaceholder: string := "https://via.placeholder.com/400x250?text=No+Image"

  /** The detail panel opens for the selected defect, with numbered steps. */
  function DetailPanel(s: ReportsState): (p: Option<Details.Panel>)
    ensures p.Some? <==> s.selected.Some?
    ensures p.Some? ==> p.value == Details.PanelOf(s.selected.value, ImagePlaceholder)
  {
    if s.selected.Some? then Some(Details.PanelOf(s.selected.value, ImagePlaceholder)) else None
  }

  /** A successful resolve followed by a successful reopen brings the
      selected defect back to status "Open" and leaves everything else of it
      unchanged. */
  lemma ResolveThenReopen(s: ReportsState)
    requires s.selected.Some?
    ensures var h1 := Handle(s, false, Ok(()));
            var h2 := Handle(h1.state, true, Ok(()));
            h2.state.selected == Some(s.selected.value.(status := Some("Open")))
            && StatusLabel(h2.state.selected.value) == "Open"
  {
  }
}
