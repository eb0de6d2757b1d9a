// Push notifications to the stations' phones: the Pushover request built from the credentials and
// the message, the answer mapped to a status dict, and the fixed notification each agent sends.
// The credentials come from the environment and the POST is an oracle.
module Pushover {
  import opened Wrappers
  import opened Strings
  import opened Json

  /** A notification as the notify helpers request it. */
  datatype Notification = Notification(title: string, message: string, priority: int, sound: string)

  /** What the POST does: an HTTP status with its body text, or an exception with its text. */
  datatype PostAnswer = Status(code: int, text: string) | Raised(error: string)

  const BaseKeys: seq<string> := ["token", "user", "title", "message", "priority", "sound"]

  /** Python truthiness of an optional string. */
  predicate Given(s: Option<string>) {
    s.Some? && s.value != ""
  }

  /** The keys the request carries: the six fixed ones, then url and url_title when given, then
      retry and expire for emergency priority. */
  function PayloadKeys(priority: int, url: Option<string>, urlTitle: Option<string>): seq<string> {
    BaseKeys + (if Given(url) then ["url"] else []) + (if Given(urlTitle) then ["url_title"] else [])
    + (if priority == 2 then ["retry", "expire"] else [])
  }

  function Skipped(): Json {
    Obj([("status", Str("skipped")), ("reason", Str("No Pushover credentials"))])
  }

  /** The status dict for the POST's answer. */
  function AnswerDict(title: string, answer: PostAnswer): (r: Json)
    ensures Get(r, "status") == Some(Str(if answer.Raised? then "error" else if answer.code == 200 then "sent" else "failed"))
  {
    match answer
    case Status(code, text) =>
      if code == 200 then Obj([("status", Str("sent")), ("title", Str(title))])
      else Obj([("status", Str("failed")), ("error", Str(text))])
    case Raised(e) => Obj([("status", Str("error")), ("error", Str(e))])
  }

  /** The fields of the request, in the order they are added. */
  function BaseFields(key: string, user: string, n: Notification): seq<(string, Json)> {
    [("token", Str(key)), ("user", Str(user)), ("title", Str(n.title)),
     ("message", Str(n.message)), ("priority", Int(n.priority)), ("sound", Str(n.sound))]
  }

  function Optional(name: string, value: Option<string>): seq<(string, Json)> {
    if Given(value) then [(name, Str(value.value))] else []
  }

  function Emergency(priority: int): seq<(string, Json)> {
    if priority == 2 then [("retry", Int(60)), ("expire", Int(3600))] else []
  }

  function Payload(key: string, user: string, n: Notification, url: Option<string>, urlTitle: Option<string>): Json {
    Obj(BaseFields(key, user, n) + Optional("url", url) + Optional("url_title", urlTitle) + Emergency(n.priority))
  }

  /** The keys of a concatenation of fields are the concatenated keys. */
  lemma KeysAppend(a: seq<(string, Json)>, b: seq<(string, Json)>)
    ensures Keys(Obj(a + b)) == Keys(Obj(a)) + Keys(Obj(b))
  {
    assert forall k :: 0 <= k < |a + b| ==> Keys(Obj(a + b))[k] == (Keys(Obj(a)) + Keys(Obj(b)))[k];
  }

  /** The payload carries the six fixed keys, then url and url_title when given, then retry and
      expire exactly for emergency priority. */
  lemma PayloadKeysInOrder(key: string, user: string, n: Notification, url: Option<string>, urlTitle: Option<string>)
    ensures Keys(Payload(key, user, n, url, urlTitle)) == PayloadKeys(n.priority, url, urlTitle)
  {
    var base, u, t, e := BaseFields(key, user, n), Optional("url", url), Optional("url_title", urlTitle), Emergency(n.priority);
    KeysAppend(base, u);
    KeysAppend(base + u, t);
    KeysAppend(base + u + t, e);
    assert Keys(Obj(base)) == BaseKeys;
    assert Keys(Obj(u)) == (if Given(url) then ["url"] else []);
    assert Keys(Obj(t)) == (if Given(urlTitle) then ["url_title"] else []);
    assert Keys(Obj(e)) == (if n.priority == 2 then ["retry", "expire"] else []);
  }

  /** The API token is sent under "token". */
  lemma PayloadToken(key: string, user: string, n: Notification, url: Option<string>, urlTitle: Option<string>)
    ensures Get(Payload(key, user, n, url, urlTitle), "token") == Some(Str(key))
  {
    var p := Payload(key, user, n, url, urlTitle);
    assert p.fields[0] == ("token", Str(key));
    GetAt(p, "token", 0);
  }

  /** The user key is sent under "user". */
  lemma PayloadUser(key: string, user: string, n: Notification, url: Option<string>, urlTitle: Option<string>)
    ensures Get(Payload(key, user, n, url, urlTitle), "user") == Some(Str(user))
  {
    var p := Payload(key, user, n, url, urlTitle);
    assert p.fields[0].0 == "token" && p.fields[1] == ("user", Str(user));
    GetAt(p, "user", 1);
  }

  /** The priority is sent under "priority". */
  lemma PayloadPriority(key: string, user: string, n: Notification, url: Option<string>, urlTitle: Option<string>)
    ensures Get(Payload(key, user, n, url, urlTitle), "priority") == Some(Int(n.priority))
  {
    var p := Payload(key, user, n, url, urlTitle);
    assert p.fields[0].0 == "token" && p.fields[1].0 == "user" && p.fields[2].0 == "title";
    assert p.fields[3].0 == "message" && p.fields[4] == ("priority", Int(n.priority));
    GetAt(p, "priority", 4);
  }

  /** Retry and expire carry 60 and 3600 seconds for emergency priority and are absent otherwise. */
  lemma PayloadEmergency(key: string, user: string, n: Notification, url: Option<string>, urlTitle: Option<string>)
    ensures var p := Payload(key, user, n, url, urlTitle);
      (n.priority == 2 ==> Get(p, "retry") == Some(Int(60)) && Get(p, "expire") == Some(Int(3600)))
      && (n.priority != 2 ==> Get(p, "retry").None? && Get(p, "expire").None?)
  {
    var p := Payload(key, user, n, url, urlTitle);
    PayloadKeysInOrder(key, user, n, url, urlTitle);
    var before := BaseFields(key, user, n) + Optional("url", url) + Optional("url_title", urlTitle);
    assert p.fields == before + Emergency(n.priority);
    if n.priority == 2 {
      assert forall k :: 0 <= k < |before| ==> before[k].0 != "retry" && before[k].0 != "expire";
      GetAt(p, "retry", |before|);
      GetAt(p, "expire", |before| + 1);
    } else {
      assert "retry" !in Keys(p) && "expire" !in Keys(p);
      GetNone(p, "retry");
      GetNone(p, "expire");
    }
  }

  /** `send_pushover`: without both credentials nothing is built or sent; otherwise the payload
      is built key by key and posted, and no outcome raises. */
  method SendPushover(apiKey: Option<string>, userKey: Option<string>, n: Notification,
                      url: Option<string>, urlTitle: Option<string>, post: Json -> PostAnswer)
    returns (r: Json, sent: Option<Json>)
    ensures !Given(apiKey) || !Given(userKey) ==> r == Skipped() && sent.None?
    ensures Given(apiKey) && Given(userKey) ==>
      sent == Some(Payload(apiKey.value, userKey.value, n, url, urlTitle)) && r == AnswerDict(n.title, post(sent.value))
  {
    var key, user := apiKey.GetOr(""), userKey.GetOr("");
    if key == "" || user == "" {
      return Skipped(), None;
    }
    var fields := BaseFields(key, user, n);
    if Given(url) {
      fields := fields + [("url", Str(url.value))];
    }
    if Given(urlTitle) {
      fields := fields + [("url_title", Str(urlTitle.value))];
    }
    if n.priority == 2 {
      fields := fields + [("retry", Int(60)), ("expire", Int(3600))];
    }
    var payload := Obj(fields);
    assert payload == Payload(key, user, n, url, urlTitle);
    return AnswerDict(n.title, post(payload)), Some(payload);
  }

  // ---- the notifications --------------------------------------------------------------

  const Pin: string := "\U{1F4CD} "
  const Phone: string := "\U{1F4DE} "
  const Warning: string := "\U{26A0}\U{FE0F} "

  predicate IsLetter(c: char) { IsUpper(c) || IsLower(c) }

  /** str.title() on ASCII letters: a letter is upper-cased at the start of a word (after a
      non-letter, or at the start when `afterLetter` is false) and lower-cased inside one; every
      other character is kept. */
  function TitleFrom(s: string, afterLetter: bool): (r: string)
    ensures |r| == |s|
    ensures forall i :: 0 <= i < |s| && !IsLetter(s[i]) ==> r[i] == s[i]
    ensures forall i :: 0 <= i < |s| && IsLetter(s[i]) ==>
      r[i] == if (if i == 0 then afterLetter else IsLetter(s[i - 1])) then LowerChar(s[i]) else UpperChar(s[i])
    decreases |s|
  {
    if |s| == 0 then ""
    else
      var c := s[0];
      var letter := IsLetter(c);
      [if !letter then c else if afterLetter then LowerChar(c) else UpperChar(c)] + TitleFrom(s[1..], letter)
  }

  function Title(s: string): string {
    TitleFrom(s, false)
  }

  /** `notify_fire_station`. */
  function NotifyFireStation(location: string, units: int, unitType: string): Notification {
    Notification("\U{1F525} FIRE STATION DISPATCH",
      "DEPLOY " + IntToString(units) + " " + Upper(unitType) + "(S) TO:\n" + Pin + location + "\n\n"
      + "\U{23F1}\U{FE0F} Respond immediately\n" + Phone + "DDMS Fire Chief Agent", 1, "siren")
  }

  /** `notify_hospital`. */
  function NotifyHospital(location: string, ambulances: int): Notification {
    Notification("\U{1F3E5} HOSPITAL DISPATCH",
      "DISPATCH " + IntToString(ambulances) + " AMBULANCE(S) TO:\n" + Pin + location + "\n\n"
      + "\U{1F6A8} Casualties reported - respond immediately\n" + Phone + "DDMS Medical Agent", 1, "cosmic")
  }

  /** `notify_utility_control`. */
  function NotifyUtilityControl(action: string, region: string, details: string): Notification {
    Notification("\U{26A1} UTILITY CONTROL COMMAND",
      "ACTION REQUIRED: " + action + "\n" + Pin + region + "\n\n" + details + "\n" + Phone + "DDMS Utility Agent",
      1, "mechanical")
  }

  /** `notify_police_dispatch`. */
  function NotifyPoliceDispatch(location: string, unitType: string, threatLevel: string): Notification {
    Notification("\U{1F694} POLICE DISPATCH",
      "DEPLOY " + Upper(unitType) + " TO:\n" + Pin + location + "\n\n" + Warning + "Threat Level: " + threatLevel
      + "\n" + Phone + "DDMS Police Chief Agent", 1, "pushover")
  }

  /** `notify_public_alert`: emergency priority exactly for a critical severity, in any case. */
  function NotifyPublicAlert(message: string, zone: string, severity: string): (n: Notification)
    ensures n.priority == 2 <==> Lower(severity) == "critical"
    ensures n.priority == 1 || n.priority == 2
    ensures n.sound == "echo"
  {
    Notification("\U{1F4E2} CIVIC ALERT BROADCAST",
      "PUBLIC ALERT: " + message + "\n" + Pin + "Zone: " + zone + "\n" + Warning + "Severity: " + severity + "\n\n"
      + Phone + "DDMS Civic Alert Agent", if Lower(severity) != "critical" then 1 else 2, "echo")
  }

  /** `notify_sensor_alert`. */
  function NotifySensorAlert(zone: string, sensorType: string, status: string): Notification {
    Notification("\U{1F534} SENSOR ALERT",
      "CRITICAL READING DETECTED\n" + Pin + "Zone: " + zone + "\n" + "\U{1F4CA} Sensor: " + sensorType + "\n"
      + Warning + "Status: " + status + "\n\n" + Phone + "DDMS IoT Sensor Agent", 1, "alien")
  }

  /** `notify_emergency_report`. */
  function NotifyEmergencyReport(incidentType: string, location: string, source: string): Notification {
    Notification("\U{1F4DE} EMERGENCY REPORT",
      "NEW INCIDENT REPORTED\n" + "\U{1F198} Type: " + incidentType + "\n" + Pin + "Location: " + location + "\n"
      + "\U{1F4F1} Source: " + source + "\n\n" + Phone + "DDMS Human Intake Agent", 1, "bike")
  }

  /** `notify_pa_broadcast`: always emergency priority, signed with the sender's name in title case. */
  function NotifyPaBroadcast(message: string, location: string, sourceAgent: string): (n: Notification)
    ensures n.priority == 2 && n.sound == "siren"
    ensures EndsWith(n.message, Title(ReplaceChar(sourceAgent, '-', ' ')))
  {
    var signature := Title(ReplaceChar(sourceAgent, '-', ' '));
    var m := "PUBLIC ANNOUNCEMENT ACTIVE\n" + "\U{1F4E2} Message: " + message + "\n" + Pin + "Location: " + location
      + "\n\n" + Warning + "Civic Alert Failover - Using Police PA System\n" + Phone + signature;
    assert m[|m| - |signature|..] == signature;
    Notification("\U{1F6A8} EMERGENCY PA BROADCAST", m, 2, "siren")
  }
}
