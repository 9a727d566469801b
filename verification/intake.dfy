/** The `/analyze` endpoint of backend/main.py: severity normalisation, the
    coercion of the analysis text fields, the stored record and the
    Critical-only alert. The database and the background-task queue are
    replaced by the returned record and an alert flag. */
module Intake {
  import opened Wrappers
  import opened Text
  import opened PyValue
  import EmailAlert

  /** The three severities the backend stores. */
  datatype Level = Low | High | Critical {
    function Name(): string {
      match this
      case Low => "Low"
      case High => "High"
      case Critical => "Critical"
    }
  }

  const CriticalWords: seq<string> := ["critical", "severe", "very high", "urgent"]
  const HighWords: seq<string> := ["high", "significant", "medium-high"]
  const LowWords: seq<string> := ["low", "minor", "minimal"]
  const MediumWords: seq<string> := ["medium", "moderate"]

  /** The text that `normalize_severity` matches: `str(v).lower().strip()`. */
  function SeverityKey(v: Value): string {
    PyStrip(Lower(ToStr(v)))
  }

  /** The level of a matched key: the word lists are tried in order, and a
      medium or unknown word gives High. */
  function LevelOfKey(k: string): (r: Level)
    ensures r == Critical <==> k in CriticalWords
    ensures r == Low <==> k in LowWords
  {
    WordLengths(k);
    if k in CriticalWords then Critical
    else if k in HighWords then High
    else if k in LowWords then Low
    else if k in MediumWords then High
    else High
  }

  /** `normalize_severity`: a falsy value gives High; any other value is
      matched on its key. */
  function NormalizeSeverity(v: Value): (r: Level)
    ensures !Truthy(v) ==> r == High
    ensures Truthy(v) ==> r == LevelOfKey(SeverityKey(v))
  {
    if !Truthy(v) then High else LevelOfKey(SeverityKey(v))
  }

  /** In terms of the value: Critical exactly for a truthy value whose key
      is a Critical word, Low exactly for one whose key is a Low word, and
      High for everything else, falsy values included. */
  lemma SeverityWords(v: Value)
    ensures NormalizeSeverity(v) == Critical <==> Truthy(v) && SeverityKey(v) in CriticalWords
    ensures NormalizeSeverity(v) == Low <==> Truthy(v) && SeverityKey(v) in LowWords
    ensures NormalizeSeverity(v) == High <==>
              !Truthy(v) || (SeverityKey(v) !in CriticalWords && SeverityKey(v) !in LowWords)
  {
  }

  /** The word lists share no word: their words' lengths already differ. */
  lemma WordLengths(k: string)
    ensures k in CriticalWords ==> |k| == 6 || |k| == 8 || |k| == 9
    ensures k in HighWords ==> |k| == 4 || |k| == 11
    ensures k in LowWords ==> |k| == 3 || |k| == 5 || |k| == 7
  {
  }

  /** A string without upper-case letters is its own lower-case form. */
  lemma LowerFixed(s: string)
    requires forall i :: 0 <= i < |s| ==> !IsUpperAscii(s[i])
    ensures Lower(s) == s
  {
  }

  /** Stripping keeps a string free of upper-case letters: the result is an
      infix. */
  lemma StripNoUpper(low: string)
    requires forall j :: 0 <= j < |low| ==> !IsUpperAscii(low[j])
    ensures forall j :: 0 <= j < |PyStrip(low)| ==> !IsUpperAscii(PyStrip(low)[j])
  {
    var k := PyStrip(low);
    var i :| OccursAt(low, k, i);
    assert forall j :: 0 <= j < |k| ==> k[j] == low[i + j];
  }

  /** The key of a key is the key: lower-casing and stripping a string that
      is already lower-case and stripped changes nothing. */
  lemma SeverityKeyIdempotent(s: string)
    ensures SeverityKey(Str(SeverityKey(Str(s)))) == SeverityKey(Str(s))
  {
    var low := Lower(s);
    var k := PyStrip(low);
    assert SeverityKey(Str(s)) == k;
    StripNoUpper(low);
    LowerFixed(k);
    StripIdempotent(low, PyIsSpace);
    assert SeverityKey(Str(k)) == PyStrip(k);
  }

  /** Matching ignores case and surrounding whitespace: a string and its
      lower-cased, stripped form normalise alike. */
  lemma {:induction false} NormalizeIgnoresCaseAndSpace(s: string)
    ensures NormalizeSeverity(Str(s)) == NormalizeSeverity(Str(SeverityKey(Str(s))))
  {
    SeverityKeyIdempotent(s);
  }

  /** Lower-casing keeps whitespace whitespace. */
  lemma LowerSpaces(pre: string)
    requires forall i :: 0 <= i < |pre| ==> PyIsSpace(pre[i])
    ensures forall i :: 0 <= i < |Lower(pre)| ==> PyIsSpace(Lower(pre)[i])
  {
    forall i | 0 <= i < |pre|
      ensures PyIsSpace(Lower(pre)[i])
    {
      LowerCharSpace(pre[i], PyIsSpace);
    }
  }

  /** Lower-casing works character by character, so it distributes over
      concatenation. */
  lemma LowerConcat(a: string, b: string)
    ensures Lower(a + b) == Lower(a) + Lower(b)
  {
    assert forall i :: 0 <= i < |a + b| ==> Lower(a + b)[i] == (Lower(a) + Lower(b))[i];
  }

  /** The key of a word padded with whitespace is the word lower-cased, as
      long as the word neither starts nor ends with whitespace. */
  lemma PaddedKey(pre: string, w: string, post: string)
    requires forall i :: 0 <= i < |pre| ==> PyIsSpace(pre[i])
    requires forall i :: 0 <= i < |post| ==> PyIsSpace(post[i])
    requires |w| > 0 && !PyIsSpace(w[0]) && !PyIsSpace(w[|w| - 1])
    ensures SeverityKey(Str(pre + w + post)) == Lower(w)
  {
    var lp, lw, lq := Lower(pre), Lower(w), Lower(post);
    LowerCharSpace(w[0], PyIsSpace);
    LowerCharSpace(w[|w| - 1], PyIsSpace);
    LowerConcat(pre + w, post);
    LowerConcat(pre, w);
    LowerSpaces(pre);
    LowerSpaces(post);
    StripPadded(lp, lw, lq, PyIsSpace);
  }

  /** Whitespace around a severity word and its letter case do not matter:
      " SEVERE " is Critical because "severe" is a Critical word. */
  lemma PaddedWordLevel(pre: string, w: string, post: string)
    requires forall i :: 0 <= i < |pre| ==> PyIsSpace(pre[i])
    requires forall i :: 0 <= i < |post| ==> PyIsSpace(post[i])
    requires |w| > 0 && !PyIsSpace(w[0]) && !PyIsSpace(w[|w| - 1])
    ensures NormalizeSeverity(Str(pre + w + post)) == LevelOfKey(Lower(w))
    ensures Lower(w) in CriticalWords ==> NormalizeSeverity(Str(pre + w + post)) == Critical
  {
    PaddedKey(pre, w, post);
  }

  /** A severity's name lower-cased and stripped is the first word of its
      list. */
  lemma NameKey(l: Level)
    ensures SeverityKey(Str(l.Name())) == match l case Low => "low" case High => "high" case Critical => "critical"
  {
    var w := Lower(l.Name());
    match l {
      case Low => assert w == "low";
      case High => assert w == "high";
      case Critical => assert w == "critical";
    }
    StripUnpadded(w, PyIsSpace);
  }

  /** Normalising the name of a normalised severity gives it back. */
  lemma NormalizeIdempotent(v: Value)
    ensures NormalizeSeverity(Str(NormalizeSeverity(v).Name())) == NormalizeSeverity(v)
  {
    NameKey(NormalizeSeverity(v));
  }

  // ---------------------------------------------------------------------
  // Coercion of the analysis text fields.
  // ---------------------------------------------------------------------

  /** Why the endpoint fails: `"; ".join` met a list element that is not a
      string and raised `TypeError`, which nothing catches. */
  datatype IntakeError = JoinTypeError(key: string)

  const ListSeparator: string := "; "

  /** One analysis text field: a list of strings is joined with "; ", a
      missing key gives `default`, anything else is `str(value)`. */
  function CoerceField(analysis: Dict, key: string, default: string): (r: Result<string, IntakeError>)
    ensures key !in analysis ==> r == Ok(default)
    ensures key in analysis && analysis[key].List? ==>
              (r.Ok? <==> forall i :: 0 <= i < |analysis[key].items| ==> analysis[key].items[i].Str?)
    ensures key in analysis && !analysis[key].List? ==> r == Ok(ToStr(analysis[key]))
  {
    if key in analysis && analysis[key].List? then
      match AllStrings(analysis[key].items)
      case Some(parts) => Ok(Join(parts, ListSeparator))
      case None => Err(JoinTypeError(key))
    else Ok(ToStr(Get(analysis, key, Str(default))))
  }

  /** The list case read back: splitting a joined list of strings on the
      separator returns the original text, so no element is lost. */
  lemma JoinedListSplitsBack(analysis: Dict, key: string, default: string)
    requires key in analysis && analysis[key].List?
    requires CoerceField(analysis, key, default).Ok?
    ensures Join(Split(CoerceField(analysis, key, default).value, ListSeparator), ListSeparator)
            == CoerceField(analysis, key, default).value
  {
    SplitJoin(CoerceField(analysis, key, default).value, ListSeparator);
  }

  // ---------------------------------------------------------------------
  // The endpoint.
  // ---------------------------------------------------------------------

  /** The request body (`DefectCreate`). */
  datatype DefectCreate = DefectCreate(
    defectType: string,
    confidence: real,
    imageUrl: string,
    latitude: Option<real>,
    longitude: Option<real>,
    chainage: Option<string>,
    nearestStation: Option<string>)

  /** The stored row (`Defect`); `id` and `timestamp` come from the database. */
  datatype StoredDefect = StoredDefect(
    id: int,
    defectType: string,
    confidence: real,
    imageUrl: string,
    latitude: Option<real>,
    longitude: Option<real>,
    chainage: Option<string>,
    nearestStation: Option<string>,
    severity: string,
    rootCause: string,
    actionRequired: string,
    resolutionSteps: string,
    timestamp: string)

  /** What the endpoint does: the stored row, and the alert data handed to
      the background task when one is scheduled. */
  datatype Accepted = Accepted(stored: StoredDefect, alert: Option<EmailAlert.AlertData>)

  const RootCauseDefault: string := "Analysis pending"
  const ActionDefault: string := "Awaiting assessment"
  const StepsDefault: string := "Pending detailed analysis"

  /** The `defect_dict` passed to `send_alert`, as far as it reads it. */
  function AlertDataOf(d: StoredDefect): (a: EmailAlert.AlertData)
    ensures a.severity == d.severity && a.imageUrl == Some(d.imageUrl)
    ensures a.nearestStation == Some(if d.nearestStation.Some? then Str(d.nearestStation.value) else Null)
  {
    EmailAlert.AlertData(
      d.defectType, d.severity,
      Some(if d.nearestStation.Some? then Str(d.nearestStation.value) else Null),
      Some(d.imageUrl))
  }

  /** `analyze_defect` in main.py. `analysis` is what the analysis service
      returned, `None` when the call raised (then `{}` is used). */
  function AnalyzeEndpoint(req: DefectCreate, analysis: Option<Dict>, id: int, timestamp: string)
    : (r: Result<Accepted, IntakeError>)
    ensures r.Ok? ==>
              && r.value.stored.severity == NormalizeSeverity(Get(analysis.GetOr(map[]), "severity", Str("High"))).Name()
              && r.value.stored.defectType == req.defectType
              && r.value.stored.nearestStation == req.nearestStation
              && r.value.stored.imageUrl == req.imageUrl
              && r.value.stored.confidence == req.confidence
              && r.value.stored.latitude == req.latitude
              && r.value.stored.longitude == req.longitude
              && r.value.stored.chainage == req.chainage
              && r.value.stored.id == id
              && r.value.stored.timestamp == timestamp
    ensures r.Ok? <==>
              var d := analysis.GetOr(map[]);
              && CoerceField(d, "root_cause", RootCauseDefault).Ok?
              && CoerceField(d, "immediate_action", ActionDefault).Ok?
              && CoerceField(d, "resolution_steps", StepsDefault).Ok?
    ensures r.Ok? ==>
              var d := analysis.GetOr(map[]);
              && r.value.stored.rootCause == CoerceField(d, "root_cause", RootCauseDefault).value
              && r.value.stored.actionRequired == CoerceField(d, "immediate_action", ActionDefault).value
              && r.value.stored.resolutionSteps == CoerceField(d, "resolution_steps", StepsDefault).value
    ensures r.Ok? ==> (r.value.alert.Some? <==> r.value.stored.severity == "Critical")
    ensures r.Ok? && r.value.alert.Some? ==> r.value.alert.value == AlertDataOf(r.value.stored)
  {
    var d := analysis.GetOr(map[]);
    var severity := NormalizeSeverity(Get(d, "severity", Str("High")));
    var rootCause :- CoerceField(d, "root_cause", RootCauseDefault);
    var action :- CoerceField(d, "immediate_action", ActionDefault);
    var steps :- CoerceField(d, "resolution_steps", StepsDefault);
    var stored := StoredDefect(
      id, req.defectType, req.confidence, req.imageUrl, req.latitude, req.longitude,
      req.chainage, req.nearestStation, severity.Name(), rootCause, action, steps, timestamp);
    Ok(Accepted(stored, if stored.severity == "Critical" then Some(AlertDataOf(stored)) else None))
  }

  /** A failed analysis call stores severity High, the three default texts,
      and schedules no alert. */
  lemma FailedAnalysisStoresDefaults(req: DefectCreate, id: int, timestamp: string)
    ensures var r := AnalyzeEndpoint(req, None, id, timestamp);
            && r.Ok?
            && r.value.stored.severity == "High"
            && r.value.stored.rootCause == RootCauseDefault
            && r.value.stored.actionRequired == ActionDefault
            && r.value.stored.resolutionSteps == StepsDefault
            && r.value.alert.None?
  {
    NameKey(High);
  }

  /** An alert is scheduled exactly when the analysis named a Critical
      severity word. */
  lemma {:induction false} AlertIffCriticalWord(req: DefectCreate, analysis: Dict, id: int, timestamp: string)
    requires AnalyzeEndpoint(req, Some(analysis), id, timestamp).Ok?
    ensures var v := Get(analysis, "severity", Str("High"));
            AnalyzeEndpoint(req, Some(analysis), id, timestamp).value.alert.Some?
            <==> Truthy(v) && SeverityKey(v) in CriticalWords
  {
    var v := Get(analysis, "severity", Str("High"));
    var l := NormalizeSeverity(v);
    assert l.Name() == "Critical" <==> l == Critical;
  }
}
