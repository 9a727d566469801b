/** The defect detail texts that frontend/src/pages/Reports.jsx and
    frontend/src/pages/Dashboard.jsx render alike: the image or its
    placeholder, the fallback texts, and the resolution steps cut out of the
    stored text. */
module Details {
  import opened Wrappers
  import opened Text
  import opened Records

  /** `url.startsWith('http') ? url : placeholder`. */
  function ImageSrc(url: string, placeholder: string): (r: string)
    ensures StartsWith(url, "http") ==> r == url
    ensures !StartsWith(url, "http") ==> r == placeholder
  {
    if StartsWith(url, "http") then url else placeholder
  }

  const RootCausePending: string := "Analyzing..."
  const ActionPending: string := "Pending..."

  /** The steps are the pieces between ". " separators. */
  const StepSeparator: string := ". "

  /** A shown step: its 1-based position among all pieces, and its text. */
  datatype Step = Step(number: nat, text: string)

  /** The steps area: the "Fetching AI recommendations..." text when there are
      no steps, otherwise the shown steps. */
  datatype StepsView = Fetching | Listed(steps: seq<Step>)

  /** A piece of whitespace only: `step.trim()` empties it (`BlankIff`),
      so it is not shown. */
  predicate Blank(piece: string) {
    forall i :: 0 <= i < |piece| ==> JsIsSpace(piece[i])
  }

  /** `pieces.map((step, i) => step.trim() && ...)` with the first piece at
      index `from`: only pieces that are not blank are shown, each under its
      number `i + 1`, in order. */
  function NumberFrom(pieces: seq<string>, from: nat): (r: seq<Step>)
    ensures forall i :: 0 <= i < |r| ==>
              && from < r[i].number <= from + |pieces|
              && r[i].text == pieces[r[i].number - from - 1]
              && !Blank(r[i].text)
    ensures forall i, j :: 0 <= i < j < |r| ==> r[i].number < r[j].number
    decreases |pieces|
  {
    if |pieces| == 0 then []
    else
      var rest := NumberFrom(pieces[1..], from + 1);
      if !Blank(pieces[0]) then [Step(from + 1, pieces[0])] + rest else rest
  }

  /** No piece that is not blank is dropped. */
  lemma {:induction false} NumberFromComplete(pieces: seq<string>, from: nat, k: nat)
    requires k < |pieces| && !Blank(pieces[k])
    ensures Step(from + k + 1, pieces[k]) in NumberFrom(pieces, from)
    decreases |pieces|
  {
    if k > 0 {
      assert pieces[1..][k - 1] == pieces[k];
      NumberFromComplete(pieces[1..], from + 1, k - 1);
    }
  }

  /** A piece is blank exactly when trimming empties it. */
  lemma BlankIff(piece: string)
    ensures Blank(piece) <==> JsTrim(piece) == ""
  {
    StripEmptyIff(piece, JsIsSpace);
  }

  /** The steps of a defect's `resolution_steps`. */
  function ResolutionSteps(text: Option<string>): (r: StepsView)
    ensures !TruthyText(text) <==> r.Fetching?
    ensures r.Listed? ==> r.steps == NumberFrom(Split(text.value, StepSeparator), 0)
  {
    if TruthyText(text) then Listed(NumberFrom(Split(text.value, StepSeparator), 0)) else Fetching
  }

  /** The shown steps are exactly the non-blank pieces of the text, in order,
      and the pieces put back together are the whole text. */
  lemma StepsCoverText(text: string)
    requires text != ""
    ensures var pieces := Split(text, StepSeparator);
            var r := ResolutionSteps(Some(text));
            && Join(pieces, StepSeparator) == text
            && (forall i :: 0 <= i < |r.steps| ==> r.steps[i].text == pieces[r.steps[i].number - 1])
            && (forall k :: 0 <= k < |pieces| && !Blank(pieces[k]) ==> Step(k + 1, pieces[k]) in r.steps)
  {
    SplitJoin(text, StepSeparator);
    var pieces := Split(text, StepSeparator);
    forall k | 0 <= k < |pieces| && !Blank(pieces[k])
      ensures Step(k + 1, pieces[k]) in NumberFrom(pieces, 0)
    {
      NumberFromComplete(pieces, 0, k);
    }
  }

  lemma NotBlank(word: string)
    requires |word| > 0 && 'A' <= word[0] <= 'Z'
    ensures !Blank(word)
  {
    assert !JsIsSpace(word[0]);
  }

  /** Numbers can skip: in "Inspect. . Replace" the blank middle piece is
      dropped and the steps are numbered 1 and 3. */
  lemma StepNumbersCanSkip()
    ensures var r := NumberFrom(["Inspect", "", "Replace"], 0);
            |r| == 2 && r[0] == Step(1, "Inspect") && r[1] == Step(3, "Replace")
  {
    var pieces := ["Inspect", "", "Replace"];
    NotBlank("Inspect");
    NotBlank("Replace");
    assert pieces[1..] == ["", "Replace"];
    assert pieces[1..][1..] == ["Replace"];
    assert pieces[1..][1..][1..] == [];
  }

  // ---------------------------------------------------------------------
  // The detail panel.
  // ---------------------------------------------------------------------

  /** The texts of a defect's detail panel. */
  datatype Panel = Panel(
    critical: bool, imageSrc: string, rootCause: string, action: string, steps: StepsView)

  /** The panel for a selected defect; the two pages differ only in their
      image placeholder. */
  function PanelOf(d: Defect, placeholder: string): (p: Panel)
    ensures p.critical <==> d.severity == "Critical"
    ensures StartsWith(d.imageUrl, "http") ==> p.imageSrc == d.imageUrl
    ensures !StartsWith(d.imageUrl, "http") ==> p.imageSrc == placeholder
    ensures p.rootCause == OrText(d.rootCause, RootCausePending)
    ensures p.action == OrText(d.actionRequired, ActionPending)
    ensures p.steps == ResolutionSteps(d.resolutionSteps)
  {
    Panel(d.severity == "Critical", ImageSrc(d.imageUrl, placeholder),
          OrText(d.rootCause, RootCausePending), OrText(d.actionRequired, ActionPending),
          ResolutionSteps(d.resolutionSteps))
  }
}
