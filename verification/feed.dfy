/** The defect feed of frontend/src/App.jsx: every five seconds
    `fetchDefects` reads `/defects`, keeps a StationMaster's own defects,
    and replaces the list when it changed. One poll is one call here; the
    timer and the request are outside the model and the response is an
    input (`None` when the request raised). */
module Feed {
  import opened Wrappers
  import opened Seqs
  import opened Records

  /** The list before the first poll (`useState([])`). */
  const InitialDefects: seq<Defect> := []

  /** `user && user.role === 'StationMaster' && user.station_id`. */
  predicate ScopedToStation(user: Option<User>) {
    user.Some? && user.value.role == StationMasterRole && TruthyNumber(user.value.stationId)
  }

  /** The role filter applied to a response: a station-scoped user sees the
      defects assigned to their station, in response order; everyone else sees
      the response unchanged. */
  function RoleFilter(user: Option<User>, data: seq<Defect>): (r: seq<Defect>)
    ensures !ScopedToStation(user) ==> r == data
    ensures ScopedToStation(user) ==>
              && IsSubsequence(r, data)
              && (forall i :: 0 <= i < |r| ==> r[i].assignedStationId == user.value.stationId)
              && (forall i :: 0 <= i < |data| ==>
                    multiset(r)[data[i]]
                    == if data[i].assignedStationId == user.value.stationId then multiset(data)[data[i]] else 0)
  {
    if ScopedToStation(user) then
      var keep := (d: Defect) => d.assignedStationId == user.value.stationId;
      FilterIsSubsequence(data, keep);
      Filter(data, keep)
    else data
  }

  /** A station-scoped user never sees a defect assigned elsewhere or to no
      station, and sees every defect assigned to their station. */
  lemma ScopedSeesExactlyOwn(user: Option<User>, data: seq<Defect>, d: Defect)
    requires ScopedToStation(user) && d in data
    ensures d in RoleFilter(user, data) <==> d.assignedStationId == user.value.stationId
  {
    var i :| 0 <= i < |data| && data[i] == d;
    var r := RoleFilter(user, data);
    if d in r {
      var j :| 0 <= j < |r| && r[j] == d;
    } else {
      assert multiset(r)[d] == 0;
    }
  }

  /** What one poll did: the list afterwards, whether a request was made and
      whether `setDefects` was called. */
  datatype Poll = Poll(defects: seq<Defect>, requested: bool, published: bool)

  /** `fetchDefects` as written: the filtered response is compared with
      `captured`, the `defects` value of the render that set up the effect
      (the effect depends on `[token, user]` only), while the list on screen
      is `current`. */
  function PollAsWritten(
    token: Option<string>, user: Option<User>, captured: seq<Defect>, current: seq<Defect>,
    response: Option<seq<Defect>>): (r: Poll)
    ensures !TruthyText(token) ==> r == Poll(current, false, false)
    ensures r.requested <==> TruthyText(token)
    ensures r.published <==>
              TruthyText(token) && response.Some? && RoleFilter(user, response.value) != captured
    ensures r.published ==> r.defects == RoleFilter(user, response.value)
    ensures !r.published ==> r.defects == current
  {
    if !TruthyText(token) then Poll(current, false, false)
    else match response
      case None => Poll(current, true, false)
      case Some(data) =>
        var filtered := RoleFilter(user, data);
        if filtered != captured then Poll(filtered, true, true) else Poll(current, true, false)
  }

  /** Successive polls of one effect as written: `captured` stays fixed. */
  function PollsAsWritten(
    token: Option<string>, user: Option<User>, captured: seq<Defect>, current: seq<Defect>,
    responses: seq<Option<seq<Defect>>>): (r: seq<Defect>)
    decreases |responses|
  {
    if |responses| == 0 then current
    else
      var last := responses[|responses| - 1];
      var before := PollsAsWritten(token, user, captured, current, responses[..|responses| - 1]);
      PollAsWritten(token, user, captured, before, last).defects
  }

  /** A defect used to exhibit the stale comparison. */
  const SampleDefect: Defect :=
    Defect(1, "Crack", 92.5, "http://img/1.jpg", None, None, None, "High",
           None, None, None, None, None)

  /** As written, the list can stay stale: the effect starts with `[]`, the
      first poll shows one defect, the server then returns none, and because
      `[]` equals the captured `[]` the defect stays on screen. The same
      defect returned twice is also published on both polls. */
  lemma StaleListAsWritten()
    ensures var token := Some("t");
            var polls := [Some([SampleDefect]), Some([])];
            && PollsAsWritten(token, None, InitialDefects, InitialDefects, polls) == [SampleDefect]
            && PollsIntended(token, None, InitialDefects, polls) == []
    ensures PollAsWritten(Some("t"), None, InitialDefects, [SampleDefect], Some([SampleDefect])).published
  {
    var token := Some("t");
    var polls: seq<Option<seq<Defect>>> := [Some([SampleDefect]), Some([])];
    assert polls[..1] == [Some([SampleDefect])];
    assert polls[..1][..0] == [];
    var first := PollsAsWritten(token, None, InitialDefects, InitialDefects, polls[..1]);
    assert first == [SampleDefect];
    PollsIntendedShowLatest(token, None, InitialDefects, polls, 1);
  }

  /** The evidently intended poll: compare with the list on screen. */
  function PollIntended(
    token: Option<string>, user: Option<User>, current: seq<Defect>,
    response: Option<seq<Defect>>): (r: Poll)
    ensures !TruthyText(token) ==> r == Poll(current, false, false)
    ensures r.requested <==> TruthyText(token)
    ensures TruthyText(token) && response.Some? ==> r.defects == RoleFilter(user, response.value)
    ensures response.None? ==> r.defects == current
    ensures r.published <==> r.requested && response.Some? && r.defects != current
  {
    if !TruthyText(token) then Poll(current, false, false)
    else match response
      case None => Poll(current, true, false)
      case Some(data) =>
        var filtered := RoleFilter(user, data);
        Poll(filtered, true, filtered != current)
  }

  /** Successive intended polls. */
  function PollsIntended(
    token: Option<string>, user: Option<User>, current: seq<Defect>,
    responses: seq<Option<seq<Defect>>>): seq<Defect>
    decreases |responses|
  {
    if |responses| == 0 then current
    else
      PollIntended(token, user, PollsIntended(token, user, current, responses[..|responses| - 1]),
                   responses[|responses| - 1]).defects
  }

  /** With the intended comparison the list always shows the latest
      successful response, filtered; failed polls change nothing. */
  lemma {:induction false} PollsIntendedShowLatest(
    token: Option<string>, user: Option<User>, current: seq<Defect>,
    responses: seq<Option<seq<Defect>>>, k: nat)
    requires TruthyText(token)
    requires k < |responses| && responses[k].Some?
    requires forall j :: k < j < |responses| ==> responses[j].None?
    ensures PollsIntended(token, user, current, responses) == RoleFilter(user, responses[k].value)
    decreases |responses|
  {
    if k < |responses| - 1 {
      var prefix := responses[..|responses| - 1];
      assert prefix[k] == responses[k];
      PollsIntendedShowLatest(token, user, current, prefix, k);
    }
  }

  /** The same response twice publishes at most once. */
  lemma RepeatPublishesOnce(
    token: Option<string>, user: Option<User>, current: seq<Defect>, response: Option<seq<Defect>>)
    ensures var first := PollIntended(token, user, current, response);
            !PollIntended(token, user, first.defects, response).published
  {
  }
}
