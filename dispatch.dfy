/**
 * `onMethodCall`: which channel method names the plugin answers, and the command
 * each one runs. Argument extraction (map lookups, casts, `Integer.valueOf`) is
 * taken as done: `Arguments` holds the values the handler would obtain.
 */
module Dispatch {
  import opened Base
  import opened Controller

  /** The converted arguments of a call; each command reads only its own slots. */
  datatype Arguments = Arguments(
    url: string,       // play: argument "url"
    from: int32,       // play: argument "from", seconds
    speed: Speed,      // play: argument "speed"
    seekMillis: int32, // seek: the position argument, already scaled to milliseconds
    muted: bool,       // mute: the argument
    value: Speed)      // changeSpeed: the argument

  datatype MethodCall = MethodCall(name: string, arguments: Arguments)

  /** `response.success(null)` or `response.notImplemented()`. */
  datatype Reply = Success | NotImplemented

  /** The six method names the handler knows. */
  const MethodNames: set<string> := {"play", "pause", "stop", "seek", "mute", "changeSpeed"}

  function NameOf(c: Command): (name: string)
    ensures name in MethodNames
  {
    match c
    case PlayCall(_, _, _) => "play"
    case PauseCall => "pause"
    case StopCall => "stop"
    case SeekCall(_) => "seek"
    case MuteCall(_) => "mute"
    case ChangeSpeedCall(_) => "changeSpeed"
  }

  /** The command a call runs, or None for an unknown method name. */
  function Decode(call: MethodCall): (r: Option<Command>)
    ensures r.Some? <==> call.name in MethodNames
    ensures r.Some? ==> NameOf(r.value) == call.name
  {
    var a := call.arguments;
    match call.name
    case "play" => Some(PlayCall(a.url, a.from, a.speed))
    case "pause" => Some(PauseCall)
    case "stop" => Some(StopCall)
    case "seek" => Some(SeekCall(a.seekMillis))
    case "mute" => Some(MuteCall(a.muted))
    case "changeSpeed" => Some(ChangeSpeedCall(a.value))
    case _ => None
  }

  /** What the handler answers: success for a known name, notImplemented otherwise. */
  function ReplyTo(call: MethodCall): (r: Reply)
    ensures r == Success <==> call.name in MethodNames
  {
    if Decode(call).Some? then Success else NotImplemented
  }

  /** The call that asks for command c, with the slots c does not read taken from `others`. */
  function Encode(c: Command, others: Arguments): MethodCall
  {
    var a := match c
      case PlayCall(url, from, speed) => others.(url := url, from := from, speed := speed)
      case SeekCall(millis) => others.(seekMillis := millis)
      case MuteCall(muted) => others.(muted := muted)
      case ChangeSpeedCall(value) => others.(value := value)
      case _ => others;
    MethodCall(NameOf(c), a)
  }

  /** Exactly the six names are known. */
  lemma DecodeKnowsExactlyTheNames(call: MethodCall)
    ensures Decode(call).Some? <==> call.name in MethodNames
  {
  }

  /** Every command is reached by its own method name and arguments. */
  lemma DecodeEncode(c: Command, others: Arguments)
    ensures Decode(Encode(c, others)) == Some(c)
  {
  }

  /** A decoded call is the encoding of its command: the name selects it and its slots carry the arguments. */
  lemma EncodeDecode(call: MethodCall)
    requires Decode(call).Some?
    ensures NameOf(Decode(call).value) == call.name
    ensures Encode(Decode(call).value, call.arguments) == call
  {
  }
}
