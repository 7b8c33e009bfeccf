/**
 * What the plugin sends back over the method channel: one invocation per event, with
 * the channel method name and the argument the Android code passes to `invokeMethod`.
 */
module Channel {
  import opened Base
  import opened Decimal

  /** The events of the plugin, each with the payload it carries. */
  datatype Event =
    | OnStart(duration: int32)            // milliseconds, from getDuration()
    | OnPause                             // payload is always `true`
    | OnStop
    | OnComplete
    | OnError(message: string)            // "Invalid Datasource" or an ErrorPayload
    | OnCurrentPosition(position: int32)  // milliseconds, from getCurrentPosition()

  /** The argument of a channel invocation, as the Java code boxes it. */
  datatype Argument = NullArg | IntArg(i: int32) | BoolArg(b: bool) | TextArg(text: string)

  /** The channel method of an event; every name lies in the plugin's "audio.on" namespace. */
  function MethodName(e: Event): (name: string)
    ensures |name| > 8 && name[..8] == "audio.on"
  {
    match e
    case OnStart(_) => "audio.onStart"
    case OnPause => "audio.onPause"
    case OnStop => "audio.onStop"
    case OnComplete => "audio.onComplete"
    case OnError(_) => "audio.onError"
    case OnCurrentPosition(_) => "audio.onCurrentPosition"
  }

  /**
   * The argument passed with an event: an int for onStart and onCurrentPosition, `true`
   * for onPause, a string for onError, and null for onStop and onComplete.
   */
  function ArgumentOf(e: Event): (a: Argument)
    ensures a.IntArg? <==> e.OnStart? || e.OnCurrentPosition?
    ensures a.NullArg? <==> e.OnStop? || e.OnComplete?
    ensures a.BoolArg? <==> e.OnPause?
    ensures a.TextArg? <==> e.OnError?
    ensures e.OnPause? ==> a.b
  {
    match e
    case OnStart(d) => IntArg(d)
    case OnPause => BoolArg(true)
    case OnStop => NullArg
    case OnComplete => NullArg
    case OnError(m) => TextArg(m)
    case OnCurrentPosition(p) => IntArg(p)
  }

  /** A listener can tell every event apart from the name and argument it receives. */
  lemma InvocationDeterminesEvent(e1: Event, e2: Event)
    requires MethodName(e1) == MethodName(e2) && ArgumentOf(e1) == ArgumentOf(e2)
    ensures e1 == e2
  {
  }

  /** The message of the error sent when the data source cannot be set. */
  const InvalidDatasource: string := "Invalid Datasource"

  const WhatPrefix: string := "{\"what\":"
  const ExtraKey: string := ",\"extra\":"

  /** `String.format("{\"what\":%d,\"extra\":%d}", what, extra)`. */
  function ErrorPayload(what: int32, extra: int32): (r: string)
    ensures r != InvalidDatasource
  {
    WhatPrefix + FormatInt(what) + ExtraKey + FormatInt(extra) + "}"
  }

  /** The first index of c in s, if any. */
  function IndexOf(s: string, c: char): (r: Option<nat>)
    ensures r.Some? ==> r.value < |s| && s[r.value] == c && c !in s[..r.value]
    ensures r.None? ==> c !in s
  {
    if s == [] then None
    else if s[0] == c then Some(0)
    else match IndexOf(s[1..], c)
      case None => None
      case Some(k) => assert s[..k + 1] == [s[0]] + s[1..][..k]; Some(k + 1)
  }

  /** Reads the two codes back out of an error payload; rejects every other string. */
  function ParseErrorPayload(s: string): Option<(int32, int32)>
  {
    if |s| < |WhatPrefix| + 1 || s[..|WhatPrefix|] != WhatPrefix || s[|s| - 1] != '}' then None
    else
      var body := s[|WhatPrefix|..|s| - 1];
      match IndexOf(body, ',')
      case None => None
      case Some(k) =>
        var rest := body[k..];
        if |rest| < |ExtraKey| || rest[..|ExtraKey|] != ExtraKey then None
        else
          match (ParseInt(body[..k]), ParseInt(rest[|ExtraKey|..]))
          case (Some(w), Some(e)) =>
            if Int32Min <= w <= Int32Max && Int32Min <= e <= Int32Max then Some((w, e)) else None
          case _ => None
  }

  lemma NoCommaInNumber(i: int)
    ensures ',' !in FormatInt(i)
  {
  }

  /** IndexOf finds the first occurrence. */
  lemma IndexOfFirst(s: string, c: char, k: nat)
    requires k < |s| && s[k] == c && c !in s[..k]
    ensures IndexOf(s, c) == Some(k)
  {
  }

  /** The payload splits at the comma right after the first number. */
  lemma PayloadBody(what: int32, extra: int32)
    ensures var s := ErrorPayload(what, extra);
      |s| >= |WhatPrefix| + 1 && s[..|WhatPrefix|] == WhatPrefix && s[|s| - 1] == '}' &&
      s[|WhatPrefix|..|s| - 1] == FormatInt(what) + ExtraKey + FormatInt(extra)
  {
    var body := FormatInt(what) + ExtraKey + FormatInt(extra);
    assert ErrorPayload(what, extra) == WhatPrefix + body + "}";
  }

  /** The payload carries both codes: parsing it gives them back. */
  lemma ErrorPayloadRoundTrip(what: int32, extra: int32)
    ensures ParseErrorPayload(ErrorPayload(what, extra)) == Some((what, extra))
  {
    var w, e := FormatInt(what), FormatInt(extra);
    var body := w + ExtraKey + e;
    PayloadBody(what, extra);
    NoCommaInNumber(what);
    var k := |w|;
    assert body[..k] == w;
    IndexOfFirst(body, ',', k);
    assert body[k..] == ExtraKey + e;
    assert (ExtraKey + e)[|ExtraKey|..] == e;
    FormatThenParse(what);
    FormatThenParse(extra);
  }

  /** Only the payload of (what, extra) parses to (what, extra). */
  lemma ParsedPayloadIsFormatted(s: string, what: int32, extra: int32)
    requires ParseErrorPayload(s) == Some((what, extra))
    ensures s == ErrorPayload(what, extra)
  {
    var body := s[|WhatPrefix|..|s| - 1];
    assert s == WhatPrefix + body + "}";
    var k := IndexOf(body, ',').value;
    var rest := body[k..];
    var tail := rest[|ExtraKey|..];
    ParseThenFormat(body[..k], what);
    ParseThenFormat(tail, extra);
    assert rest == ExtraKey + tail;
    assert body == body[..k] + rest;
  }

  /** Parsing is the exact inverse of the payload format. */
  lemma ErrorPayloadIff(s: string, what: int32, extra: int32)
    ensures ParseErrorPayload(s) == Some((what, extra)) <==> s == ErrorPayload(what, extra)
  {
    if ParseErrorPayload(s) == Some((what, extra)) { ParsedPayloadIsFormatted(s, what, extra); }
    if s == ErrorPayload(what, extra) { ErrorPayloadRoundTrip(what, extra); }
  }

  /** Distinct code pairs give distinct payloads. */
  lemma ErrorPayloadInjective(w1: int32, e1: int32, w2: int32, e2: int32)
    requires ErrorPayload(w1, e1) == ErrorPayload(w2, e2)
    ensures w1 == w2 && e1 == e2
  {
    ErrorPayloadRoundTrip(w1, e1);
    ErrorPayloadRoundTrip(w2, e2);
  }
}
