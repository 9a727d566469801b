/** frontend/src/components/DroneControl.jsx: the admin-only panel that
    starts and stops the vision agent. The status poll and the start and stop
    requests are outcomes passed in. */
module DroneControl {
  import opened Wrappers
  import opened Text
  import opened Records

  /** `/drone/status`: whether the agent runs and its process id. */
  datatype DroneStatus = DroneStatus(isRunning: bool, processId: Option<int>)

  /** The panel's state. */
  datatype Panel = Panel(status: DroneStatus, loading: bool, message: string)

  /** The state before the first poll. */
  const InitialPanel: Panel := Panel(DroneStatus(false, None), false, "")

  /** `fetchStatus`: a reply replaces the status; a failure changes nothing. */
  function FetchStatus(p: Panel, reply: Option<DroneStatus>): (r: Panel)
    ensures reply.Some? ==> r == p.(status := reply.value)
    ensures reply.None? ==> r == p
  {
    if reply.Some? then p.(status := reply.value) else p
  }

  datatype Command = Start | Stop

  /** `handleStart` and `handleStop` before the request: loading, and the
      message cleared. */
  function CommandStart(p: Panel): (r: Panel)
    ensures r.loading && r.message == "" && r.status == p.status
  {
    p.(loading := true, message := "")
  }

  /** While a command is pending the button is disabled and no message is
      shown. */
  lemma PendingCommandDisablesButton(p: Panel, user: Option<User>)
    requires IsAdmin(user)
    ensures var v := Render(CommandStart(p), user).value;
            v.disabled && v.message.None?
  {
  }

  /** `handleStart` and `handleStop`: the reply's message, or the server's
      `detail`, or the fixed failure text; loading ends either way. */
  function AfterCommand(p: Panel, cmd: Command, outcome: Result<string, Option<string>>): (r: Panel)
    ensures !r.loading && r.status == p.status
    ensures outcome.Ok? ==> r.message == outcome.value
    ensures outcome.Err? ==> r.message == OrText(outcome.error,
              if cmd == Start then "Failed to start drone inspection" else "Failed to stop drone inspection")
  {
    match outcome
    case Ok(m) => p.(message := m, loading := false)
    case Err(detail) =>
      var fallback := if cmd == Start then "Failed to start drone inspection" else "Failed to stop drone inspection";
      p.(message := OrText(detail, fallback), loading := false)
  }

  /** Two seconds after a successful command the status is polled again and
      the message cleared. */
  function AfterDelay(p: Panel, reply: Option<DroneStatus>): (r: Panel)
    ensures r.message == "" && r.loading == p.loading
    ensures r.status == FetchStatus(p, reply).status
  {
    FetchStatus(p, reply).(message := "")
  }

  datatype MessageStyle = Success | Failure

  /** What the panel shows: the one control button, whether it is disabled,
      and the message with its style when there is one. */
  datatype View = View(button: Command, disabled: bool, message: Option<(string, MessageStyle)>)

  /** The rendered panel: nothing for anyone but an admin. */
  function Render(p: Panel, user: Option<User>): (v: Option<View>)
    ensures v.Some? <==> IsAdmin(user)
    ensures v.Some? ==> (v.value.button == Start <==> !p.status.isRunning)
    ensures v.Some? ==> (v.value.disabled <==> p.loading)
    ensures v.Some? ==> (v.value.message.Some? <==> p.message != "")
    ensures v.Some? && v.value.message.Some? ==>
              v.value.message.value.0 == p.message
              && (v.value.message.value.1 == Success <==> Contains(p.message, "success"))
  {
    if !IsAdmin(user) then None
    else
      var style := if Contains(p.message, "success") then Success else Failure;
      Some(View(if p.status.isRunning then Stop else Start, p.loading,
                if p.message != "" then Some((p.message, style)) else None))
  }

  /** Before the first poll an admin is offered Start, enabled, with no
      message. */
  lemma InitialOffersStart(user: Option<User>)
    requires IsAdmin(user)
    ensures Render(InitialPanel, user) == Some(View(Start, false, None))
  {
  }

  /** The style test is case-sensitive: "Drone started successfully" is a
      success, "Success" alone is not. */
  lemma MessageStyleIsCaseSensitive()
    ensures Contains("Drone started successfully", "success")
    ensures !Contains("Success", "success")
  {
    assert OccursAt("Drone started successfully", "success", 14);
    assert "Success"[0] != "success"[0];
  }
}
