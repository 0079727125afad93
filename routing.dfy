/** The bridge's message side: republishing the configured fields of an
    inbound message, and mapping the MQTT client's log levels onto the
    bridge's own logging severities. */
module Routing {
  import opened Transport

  datatype Option<T> = None | Some(value: T)

  /** An inbound payload after JSON decoding: each field name mapped to the
      payload text its value converts to (scaled by 1000 and rendered without
      a fractional part), or None where that conversion raises. A payload
      that decodes to a JSON value other than an object has no fields. */
  type Fields = map<string, Option<string>>

  /** One conversion entry: the input field and the output topic suffix. */
  type Conversion = (string, string)

  /** Output topic for a suffix: the bridge's name, a slash, the suffix. */
  function TopicFor(name: string, suffix: string): string
  {
    name + "/" + suffix
  }

  /** Entry `entry` can be read and converted from `fields`. */
  predicate Converts(entry: Conversion, fields: Fields)
  {
    entry.0 in fields && fields[entry.0].Some?
  }

  /** The publications made for the conversion list `conv`, and whether every
      entry converted; the first entry that does not ends the list. */
  function Published(name: string, conv: seq<Conversion>, fields: Fields): (seq<Call>, bool)
    decreases |conv|
  {
    if conv == [] then ([], true)
    else
      var before := Published(name, conv[..|conv| - 1], fields);
      var entry := conv[|conv| - 1];
      if !before.1 then before
      else if Converts(entry, fields) then
        (before.0 + [Publish(TopicFor(name, entry.1), fields[entry.0].value)], true)
      else (before.0, false)
  }

  /** Once an entry has failed, the later entries change nothing. */
  lemma {:induction false} PublishedStops(name: string, conv: seq<Conversion>, fields: Fields, i: nat)
    requires i <= |conv| && !Published(name, conv[..i], fields).1
    ensures Published(name, conv, fields) == Published(name, conv[..i], fields)
    decreases |conv|
  {
    if i < |conv| {
      var init := conv[..|conv| - 1];
      assert init[..i] == conv[..i];
      PublishedStops(name, init, fields, i);
    } else {
      assert conv[..i] == conv;
    }
  }

  /** Number of entries at the head of `conv` that convert. */
  function LeadingConvertible(conv: seq<Conversion>, fields: Fields): (k: nat)
    ensures k <= |conv|
    ensures forall j :: 0 <= j < k ==> Converts(conv[j], fields)
    ensures k < |conv| ==> !Converts(conv[k], fields)
  {
    if conv == [] || !Converts(conv[0], fields) then 0
    else 1 + LeadingConvertible(conv[1..], fields)
  }

  /** The publications follow the conversion list in order, one per entry,
      to name/suffix, up to the first entry that fails to convert; the entries
      after it are skipped. */
  lemma {:induction false} PublishedInOrder(name: string, conv: seq<Conversion>, fields: Fields)
    ensures var (out, complete) := Published(name, conv, fields);
            var k := LeadingConvertible(conv, fields);
            |out| == k && complete == (k == |conv|)
            && forall j :: 0 <= j < k ==>
                 out[j] == Publish(TopicFor(name, conv[j].1), fields[conv[j].0].value)
    decreases |conv|
  {
    if conv != [] {
      var init := conv[..|conv| - 1];
      PublishedInOrder(name, init, fields);
      var k0 := LeadingConvertible(init, fields);
      var k := LeadingConvertible(conv, fields);
      forall j | 0 <= j < |init|
        ensures init[j] == conv[j]
      {
      }
      if k0 < |init| {
        assert k == k0;
      } else {
        assert k == k0 || k == k0 + 1;
      }
    }
  }

  /** on_message: the publications made and whether the failure warning was
      logged. Messages on other topics are ignored; a payload that fails
      UTF-8 or JSON decoding (None) publishes nothing and is logged. */
  function Routed(name: string, subscribed: string, conv: seq<Conversion>,
                  topic: string, payload: Option<Fields>): (seq<Call>, bool)
  {
    if topic != subscribed then ([], false)
    else match payload
      case None => ([], true)
      case Some(fields) =>
        var (out, complete) := Published(name, conv, fields);
        (out, !complete)
  }

  /** What on_message does with a message, from its topic and payload. */
  lemma {:induction false} MessageRouting(name: string, subscribed: string, conv: seq<Conversion>,
                       topic: string, payload: Option<Fields>)
    ensures var (out, warned) := Routed(name, subscribed, conv, topic, payload);
            (topic != subscribed ==> out == [] && !warned)
            && (topic == subscribed && payload.None? ==> out == [] && warned)
            && (topic == subscribed && payload.Some? ==>
                  var k := LeadingConvertible(conv, payload.value);
                  |out| == k && warned == (k < |conv|)
                  && forall j :: 0 <= j < k ==>
                       out[j] == Publish(name + "/" + conv[j].1, payload.value[conv[j].0].value))
  {
    if topic == subscribed && payload.Some? {
      PublishedInOrder(name, conv, payload.value);
    }
  }

  /** The bridge's logging severities. */
  datatype Severity = Debug | Info | Warning | Error

  /** The MQTT client's log levels. */
  const LogInfo: int := 0x01
  const LogNotice: int := 0x02
  const LogWarning: int := 0x04
  const LogErr: int := 0x08
  const LogDebug: int := 0x10

  /** on_log: DEBUG and INFO keep their severity, NOTICE and WARNING become
      warnings, and every other level, known or not, is logged as an error.
      The last clause spells out the one other level the client defines,
      ERR (0x08). */
  function LogSeverity(level: int): (s: Severity)
    ensures s == Debug <==> level == LogDebug
    ensures s == Info <==> level == LogInfo
    ensures s == Warning <==> level == LogNotice || level == LogWarning
    ensures s == Error <==> level !in {LogDebug, LogInfo, LogNotice, LogWarning}
    ensures level == LogErr ==> s == Error
  {
    if level == LogDebug then Debug
    else if level == LogInfo then Info
    else if level == LogNotice then Warning
    else if level == LogWarning then Warning
    else Error
  }

  /** The line on_log emits for the client's message `buf`: a prefix naming
      the severity, then the message. */
  function LogLine(level: int, buf: string): (r: (Severity, string))
    ensures r.0 == LogSeverity(level)
    ensures |r.1| >= |buf| && r.1[|r.1| - |buf|..] == buf
  {
    var s := LogSeverity(level);
    var prefix := match s
      case Debug => "PAHO MQTT DEBUG: "
      case Info => "PAHO MQTT INFO: "
      case Warning => "PAHO MQTT WARN: "
      case Error => "PAHO MQTT ERROR: ";
    (s, prefix + buf)
  }
}
