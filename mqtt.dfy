/** Synchronising the light state with the message bus.  Outbound state goes to
    the command ("set") topic; the bridge mirrors it back on the subscribed state
    topic, so the first inbound message after a publish is taken to be that echo
    and is discarded.  The transport is represented by the connection flag and
    the list of publications it has accepted; JSON text is represented by the
    value the parser produces from it. */
module Mqtt {
  import opened Wrappers
  import Config

  /** A parsed JSON value.  Numbers with a fraction or an exponent are not represented. */
  datatype Json =
    | JNull
    | JBool(b: bool)
    | JInt(i: int)
    | JString(s: string)
    | JArray(items: seq<Json>)
    | JObject(fields: map<string, Json>)

  /** An inbound message body: text the JSON parser rejects, or the value it yields. */
  datatype Payload = Unparseable | Parsed(value: Json)

  /** The topic every state publication goes to. */
  const SetTopic: string := "home/living_room_lamps/set"

  // ---------------------------------------------------------------------------
  // Integer conversion of JSON values, as Python's `int` does it

  predicate IsDigit(c: char) { '0' <= c <= '9' }

  predicate AllDigits(ds: string) { forall i :: 0 <= i < |ds| ==> IsDigit(ds[i]) }

  /** The value of a non-empty run of decimal digits, most significant first. */
  function DigitsValue(ds: string): nat
    requires AllDigits(ds)
    decreases |ds|
  {
    if ds == [] then 0
    else DigitsValue(ds[..|ds| - 1]) * 10 + (ds[|ds| - 1] as int - '0' as int)
  }

  /** `int(text)`: an optional sign followed by one or more decimal digits. */
  function ParseInt(text: string): Option<int> {
    if |text| > 0 && (text[0] == '-' || text[0] == '+') then
      var ds := text[1..];
      if ds != [] && AllDigits(ds) then
        Some(if text[0] == '-' then -(DigitsValue(ds) as int) else DigitsValue(ds) as int)
      else None
    else if text != [] && AllDigits(text) then Some(DigitsValue(text))
    else None
  }

  /** The decimal digits of a natural number, without leading zeros. */
  function Decimal(n: nat): (ds: string)
    ensures ds != [] && AllDigits(ds)
    decreases n
  {
    var last := ('0' as int + n % 10) as char;
    if n < 10 then [last] else Decimal(n / 10) + [last]
  }

  /** The decimal text of an integer, as `str` renders it. */
  function ShowInt(i: int): string {
    if i < 0 then "-" + Decimal(-i) else Decimal(i)
  }

  lemma {:induction false} DecimalValue(n: nat)
    ensures DigitsValue(Decimal(n)) == n
    decreases n
  {
    var ds := Decimal(n);
    if n >= 10 {
      DecimalValue(n / 10);
      assert ds[..|ds| - 1] == Decimal(n / 10);
    }
  }

  /** `int` reads back the decimal text of every integer. */
  lemma ParseShowRoundTrip(i: int)
    ensures ParseInt(ShowInt(i)) == Some(i)
  {
    if i < 0 {
      DecimalValue(-i);
      assert ShowInt(i)[1..] == Decimal(-i);
    } else {
      DecimalValue(i);
    }
  }

  /** `int(value)`: integers stay, booleans count as 0 and 1, strings are parsed
      as decimal text, and anything else is refused. */
  function ToInt(v: Json): (r: Option<int>)
    ensures v.JInt? ==> r == Some(v.i)
    ensures v.JBool? ==> r == Some(if v.b then 1 else 0)
    ensures v.JNull? || v.JArray? || v.JObject? ==> r == None
  {
    match v
    case JInt(i) => Some(i)
    case JBool(b) => Some(if b then 1 else 0)
    case JString(text) => ParseInt(text)
    case _ => None
  }

  // ---------------------------------------------------------------------------
  // Payloads

  /** The payload `publish_state` builds: `"state"` is `"ON"` or `"OFF"`, and
      `"color_temp"` is the temperature unchanged. */
  function Encode(on: bool, colorTemp: int): (j: Json)
    ensures j.JObject? && j.fields.Keys == {"state", "color_temp"}
    ensures j.fields["state"] == JString(if on then "ON" else "OFF")
    ensures j.fields["color_temp"] == JInt(colorTemp)
  {
    JObject(map["state" := JString(if on then "ON" else "OFF"), "color_temp" := JInt(colorTemp)])
  }

  /** What an inbound payload asks for, or `None` when decoding it fails.  The
      light is on exactly when `"state"` is the string `"ON"` (a missing field
      reads as `"OFF"`), and a missing `"color_temp"` reads as 370. */
  function Decode(p: Payload): (r: Option<(bool, int)>)
    ensures p.Unparseable? ==> r == None
    ensures p.Parsed? && !p.value.JObject? ==> r == None
    ensures p.Parsed? && p.value.JObject? ==>
      var f := p.value.fields;
      && (r.Some? ==> (r.value.0 <==> "state" in f && f["state"] == JString("ON")))
      && ("color_temp" !in f ==> r == Some(("state" in f && f["state"] == JString("ON"), Config.DefaultColorTemp)))
      && ("color_temp" in f ==> (r.Some? <==> ToInt(f["color_temp"]).Some?))
      && ("color_temp" in f && r.Some? ==> r.value.1 == ToInt(f["color_temp"]).value)
  {
    match p
    case Unparseable => None
    case Parsed(v) =>
      if !v.JObject? then None
      else
        var state := if "state" in v.fields then v.fields["state"] else JString("OFF");
        var temp := ToInt(if "color_temp" in v.fields then v.fields["color_temp"] else JInt(Config.DefaultColorTemp));
        if temp.None? then None else Some((state == JString("ON"), temp.value))
  }

  /** Decoding what `publish_state` builds gives back the state it was built from. */
  lemma EncodeDecodeRoundTrip(on: bool, colorTemp: int)
    ensures Decode(Parsed(Encode(on, colorTemp))) == Some((on, colorTemp))
  {
  }

  /** A temperature sent as decimal text is read as the same number. */
  lemma TextTemperatureDecodes(on: bool, colorTemp: int)
    ensures var f := map["state" := JString(if on then "ON" else "OFF"), "color_temp" := JString(ShowInt(colorTemp))];
      Decode(Parsed(JObject(f))) == Some((on, colorTemp))
  {
    ParseShowRoundTrip(colorTemp);
  }

  // ---------------------------------------------------------------------------
  // The synchronisation state machine

  /** A message handed to the transport. */
  datatype Publication = Publication(topic: string, payload: Json)

  /** The state of the bus synchronisation: whether a client is installed, the
      one-shot echo flag, and what has been published so far. */
  datatype Sync = Sync(hasClient: bool, ignoreNext: bool, sent: seq<Publication>)

  /** How `publish_state` ended: the transport accepted the payload; there was
      no client; or the transport refused it.  In the last two cases the source
      raises out of `publish_state`. */
  datatype PublishOutcome = Published | NoClient | PublishFailed

  /** What one `check_msg` of the transport yields: nothing waiting, one message,
      or a transport failure (which the source lets escape from `check`). */
  datatype Poll = Idle | Arrived(topic: string, payload: Payload) | Broken

  function Initial(): (m: Sync)
    ensures !m.hasClient && !m.ignoreNext && m.sent == []
  {
    Sync(false, false, [])
  }

  /** `connect`: the client is installed only when both the handshake and the
      subscription succeed; on any failure the previous client stays. */
  function ConnectStep(m: Sync, connected: bool, subscribed: bool): (r: Sync)
    ensures r.hasClient <==> m.hasClient || (connected && subscribed)
    ensures r.ignoreNext == m.ignoreNext && r.sent == m.sent
  {
    if connected && subscribed then m.(hasClient := true) else m
  }

  /** `publish_state`: sets the echo flag first, then hands the payload to the
      client.  `delivered` says whether the transport accepts it.  The payload is
      recorded as sent only when there is a client and it accepts; the flag stays
      set in every case. */
  function PublishStep(m: Sync, on: bool, colorTemp: int, delivered: bool): (r: (Sync, PublishOutcome))
    ensures r.0.ignoreNext && r.0.hasClient == m.hasClient
    ensures r.1 == NoClient <==> !m.hasClient
    ensures r.1 == Published <==> m.hasClient && delivered
    ensures r.1 == Published ==> r.0.sent == m.sent + [Publication(SetTopic, Encode(on, colorTemp))]
    ensures r.1 != Published ==> r.0.sent == m.sent
  {
    if !m.hasClient then
      (m.(ignoreNext := true), NoClient)
    else if delivered then
      (m.(ignoreNext := true, sent := m.sent + [Publication(SetTopic, Encode(on, colorTemp))]), Published)
    else
      (m.(ignoreNext := true), PublishFailed)
  }

  /** `_callback`: a message arriving while the echo flag is set clears it and is
      dropped; otherwise the payload is decoded and, if it decodes, yields the
      `(on, color_temp)` to apply.  The flag is clear afterwards in every case. */
  function ReceiveStep(m: Sync, topic: string, p: Payload): (r: (Sync, Option<(bool, int)>))
    ensures !r.0.ignoreNext
    ensures r.0.hasClient == m.hasClient && r.0.sent == m.sent
    ensures m.ignoreNext ==> r.1 == None
    ensures !m.ignoreNext ==> r.1 == Decode(p)
  {
    if m.ignoreNext then (m.(ignoreNext := false), None)
    else (m, Decode(p))
  }

  /** `check`: without a client nothing is read.  With one, a waiting message goes
      through the callback, and a transport failure escapes (the third component)
      without touching the state. */
  function CheckStep(m: Sync, poll: Poll): (r: (Sync, Option<(bool, int)>, bool))
    ensures !m.hasClient || poll.Idle? ==> r == (m, None, false)
    ensures m.hasClient && poll.Broken? ==> r == (m, None, true)
    ensures m.hasClient && poll.Arrived? ==>
      (r.0, r.1) == ReceiveStep(m, poll.topic, poll.payload) && !r.2
  {
    if !m.hasClient then (m, None, false)
    else
      match poll
      case Idle => (m, None, false)
      case Broken => (m, None, true)
      case Arrived(topic, p) => var a := ReceiveStep(m, topic, p); (a.0, a.1, false)
  }

  /** Echo suppression: after a publish, the echo of that very payload is
      dropped, and the message after it is processed normally. */
  lemma EchoSuppressed(m: Sync, on: bool, colorTemp: int, delivered: bool, topic: string, next: Payload)
    ensures var published := PublishStep(m, on, colorTemp, delivered).0;
      var echo := ReceiveStep(published, topic, Parsed(Encode(on, colorTemp)));
      && echo.1 == None
      && ReceiveStep(echo.0, topic, next).1 == Decode(next)
  {
  }

  /** A publish the transport refuses still sets the echo flag, so the next
      inbound message is swallowed although no echo of it can come. */
  lemma FailedPublishSwallowsNext(m: Sync, on: bool, colorTemp: int, topic: string, p: Payload)
    requires m.hasClient
    ensures var failed := PublishStep(m, on, colorTemp, false);
      && failed.1 == PublishFailed && failed.0.sent == m.sent
      && ReceiveStep(failed.0, topic, p).1 == None
  {
  }

  /** The echo flag is a flag, not a counter: two publishes before any inbound
      message swallow only one message. */
  lemma TwoPublishesSwallowOne(m: Sync, a: (bool, int), b: (bool, int), delivered: bool,
                               topic: string, p1: Payload, p2: Payload)
    ensures var twice := PublishStep(PublishStep(m, a.0, a.1, delivered).0, b.0, b.1, delivered).0;
      var first := ReceiveStep(twice, topic, p1);
      && first.1 == None
      && ReceiveStep(first.0, topic, p2).1 == Decode(p2)
  {
  }

  /** The bus synchronisation object. */
  class MqttLightSync {
    var hasClient: bool
    var ignoreNext: bool
    var sent: seq<Publication>

    function Model(): Sync
      reads this
    {
      Sync(hasClient, ignoreNext, sent)
    }

    constructor ()
      ensures Model() == Initial()
    {
      hasClient := false;
      ignoreNext := false;
      sent := [];
    }

    /** `connected` and `subscribed` say whether the handshake and the
        subscription to the state topic succeed. */
    method Connect(connected: bool, subscribed: bool)
      modifies this
      ensures Model() == ConnectStep(old(Model()), connected, subscribed)
    {
      if connected && subscribed {
        hasClient := true;
      }
    }

    method Callback(topic: string, msg: Payload) returns (update: Option<(bool, int)>)
      modifies this
      ensures var r := ReceiveStep(old(Model()), topic, msg);
        Model() == r.0 && update == r.1
    {
      if ignoreNext {
        ignoreNext := false;
        return None;
      }
      update := Decode(msg);
    }

    method Check(poll: Poll) returns (update: Option<(bool, int)>, failed: bool)
      modifies this
      ensures var r := CheckStep(old(Model()), poll);
        Model() == r.0 && update == r.1 && failed == r.2
    {
      update, failed := None, false;
      if hasClient {
        match poll
        case Idle =>
        case Broken => failed := true;
        case Arrived(topic, p) => update := Callback(topic, p);
      }
    }

    method PublishState(state: bool, colorTemp: int, delivered: bool) returns (outcome: PublishOutcome)
      modifies this
      ensures var r := PublishStep(old(Model()), state, colorTemp, delivered);
        Model() == r.0 && outcome == r.1
    {
      var payload := Encode(state, colorTemp);
      ignoreNext := true;
      if !hasClient {
        return NoClient;
      }
      if !delivered {
        return PublishFailed;
      }
      sent := sent + [Publication(SetTopic, payload)];
      outcome := Published;
    }
  }
}
