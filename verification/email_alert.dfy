/** The decisions of `send_alert` in backend/email_service.py: whose
    credentials and which recipient are used, when the alert is skipped, the
    subject line, whether the image is attached, and that a failed send is
    swallowed. The HTML and plain-text bodies are not modelled. */
module EmailAlert {
  import opened Wrappers
  import opened PyValue

  /** The environment variables the function reads. */
  datatype Env = Env(emailUser: Option<string>, emailPass: Option<string>, alertRecipient: Option<string>)

  /** The part of `defect_data` the decisions read. `nearestStation` is
      `None` when the key is absent and `Some(Null)` when it holds `None`. */
  datatype AlertData = AlertData(
    defectType: string,
    severity: string,
    nearestStation: Option<Value>,
    imageUrl: Option<string>)

  datatype Mail = Mail(subject: string, sender: string, recipient: string, imageAttached: bool)

  /** How a call ends. No case is an exception: a failed send is caught. */
  datatype Outcome =
    | MissingCredentials
    | NoRecipient
    | Sent(mail: Mail)
    | SendFailed(mail: Mail)

  /** The recipient after the fallback to `ALERT_RECIPIENT`. */
  function Recipient(env: Env, supplied: Option<string>): (r: Option<string>)
    ensures Present(supplied) ==> r == supplied
    ensures !Present(supplied) ==> r == env.alertRecipient
  {
    if Present(supplied) then supplied else env.alertRecipient
  }

  const SubjectPrefix: string := "\U{1F6A8} CRITICAL: Railway Defect at "

  /** The subject: the fixed prefix, then the station name when one is
      given, else the `nearest_station` entry as an f-string renders it, and
      "Unknown Location" only when that key is absent. */
  function Subject(data: AlertData, stationName: Option<string>): (r: string)
    ensures Present(stationName) ==> r == SubjectPrefix + stationName.value
    ensures !Present(stationName) && data.nearestStation.Some? ==>
              r == SubjectPrefix + ToStr(data.nearestStation.value)
    ensures !Present(stationName) && data.nearestStation.None? ==>
              r == SubjectPrefix + "Unknown Location"
  {
    SubjectPrefix +
      if Present(stationName) then stationName.value
      else match data.nearestStation
        case None => "Unknown Location"
        case Some(v) => ToStr(v)
  }

  /** `.get` falls back only for an absent key: a stored `None` is rendered
      as "None", and an empty station name falls through to the entry. */
  lemma StoredNoneReadsNone(data: AlertData)
    requires data.nearestStation == Some(Null)
    ensures Subject(data, Some("")) == SubjectPrefix + "None"
    ensures Subject(data, Some("")) != SubjectPrefix + "Unknown Location"
  {
  }

  /** `send_alert(defect_data, recipient_email, station_name)`. The file
      system and the SMTP server are inputs: `pathExists` answers
      `os.path.exists`, `imageReadable` says whether reading the image file
      succeeds, and `smtpOk` whether login and send succeed. */
  function SendAlert(
    data: AlertData, recipient: Option<string>, stationName: Option<string>,
    env: Env, pathExists: string -> bool, imageReadable: bool, smtpOk: bool): (r: Outcome)
    ensures r.MissingCredentials? <==> !Present(env.emailUser) || !Present(env.emailPass)
    ensures r.NoRecipient? <==>
              Present(env.emailUser) && Present(env.emailPass) && !Present(Recipient(env, recipient))
    ensures r.Sent? <==>
              Present(env.emailUser) && Present(env.emailPass) && Present(Recipient(env, recipient)) && smtpOk
    ensures r.Sent? || r.SendFailed? ==>
              && r.mail.subject == Subject(data, stationName)
              && r.mail.sender == env.emailUser.value
              && r.mail.recipient == Recipient(env, recipient).value
              && (r.mail.imageAttached <==>
                    Present(data.imageUrl) && pathExists(data.imageUrl.value) && imageReadable)
  {
    var to := Recipient(env, recipient);
    if !Present(env.emailUser) || !Present(env.emailPass) then MissingCredentials
    else if !Present(to) then NoRecipient
    else
      var attached := Present(data.imageUrl) && pathExists(data.imageUrl.value) && imageReadable;
      var mail := Mail(Subject(data, stationName), env.emailUser.value, to.value, attached);
      if smtpOk then Sent(mail) else SendFailed(mail)
  }

  /** The credentials are checked first: without them nothing else matters,
      not even a missing recipient. */
  lemma CredentialsCheckedFirst(
    data: AlertData, recipient: Option<string>, stationName: Option<string>,
    env: Env, pathExists: string -> bool, imageReadable: bool, smtpOk: bool)
    requires !Present(env.emailUser)
    ensures SendAlert(data, recipient, stationName, env, pathExists, imageReadable, smtpOk)
            == MissingCredentials
  {
  }

  /** A supplied recipient is used whatever `ALERT_RECIPIENT` holds. */
  lemma SuppliedRecipientWins(
    data: AlertData, to: string, stationName: Option<string>,
    env: Env, pathExists: string -> bool, imageReadable: bool, smtpOk: bool)
    requires to != "" && Present(env.emailUser) && Present(env.emailPass)
    ensures var r := SendAlert(data, Some(to), stationName, env, pathExists, imageReadable, smtpOk);
            (r.Sent? || r.SendFailed?) && r.mail.recipient == to
  {
  }
}
