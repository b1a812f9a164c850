/** The exception taxonomy of the bridge wrapper as one tagged error type.
    Each constructor stands for one `BridgeException` subclass and keeps the
    wrapped `SubProcessError` and the positional message arguments the
    source passes when it raises it (interface or port first, then the
    bridge name). `IndexError` stands for Python's own error in two places:
    a query reading a token that `brctl show` did not print, and formatting
    a message template that has more placeholders than the one argument it
    is given (`Constructed`). */
module Exceptions {
  import opened Shell

  datatype Error =
    | AddFailed(inner: SubProcessError, iname: string, bridge: string)
    | DeleteFailed(inner: SubProcessError, iname: string, bridge: string)
    | SetHairpin(inner: SubProcessError, port: string, bridge: string)
    | SetSTP(inner: SubProcessError, bridge: string)
    | SetAgeing(inner: SubProcessError, bridge: string)
    | SetBridgePriority(inner: SubProcessError, bridge: string)
    | SetForwardDelay(inner: SubProcessError, bridge: string)
    | SetHelloTime(inner: SubProcessError, bridge: string)
    | SetMaxAge(inner: SubProcessError, bridge: string)
    | SetPathCost(inner: SubProcessError, port: string, bridge: string)
    | SetPortPriority(inner: SubProcessError, port: string, bridge: string)
    | ShowDetails(inner: SubProcessError, bridge: string)
    | CreateBridge(inner: SubProcessError, bridge: string)
    | DeleteBridge(inner: SubProcessError, bridge: string)
    | SetLinkUp(inner: SubProcessError, bridge: string)
    | SetLinkDown(inner: SubProcessError, bridge: string)
    | ShowBridges(inner: SubProcessError)
    | IndexError

  /** The positional message arguments each raise site passes after the
      wrapped failure: the interface or port, if any, then the bridge. */
  function MessageArgs(err: Error): seq<string> {
    match err
    case AddFailed(_, iname, bridge) => [iname, bridge]
    case DeleteFailed(_, iname, bridge) => [iname, bridge]
    case SetHairpin(_, port, bridge) => [port, bridge]
    case SetPathCost(_, port, bridge) => [port, bridge]
    case SetPortPriority(_, port, bridge) => [port, bridge]
    case ShowBridges(_) => []
    case IndexError => []
    case _ => [err.bridge]
  }

  /** How many `{}` placeholders the message template of the exception's
      class holds (`IndexError` is Python's own and has none). Every
      template has exactly one placeholder per message argument, so the
      templates themselves match their raise sites. */
  function Placeholders(err: Error): (n: nat)
    ensures n == |MessageArgs(err)|
  {
    match err
    case AddFailed(_, _, _) => 2
    case DeleteFailed(_, _, _) => 2
    case SetHairpin(_, _, _) => 2
    case SetPathCost(_, _, _) => 2
    case SetPortPriority(_, _, _) => 2
    case ShowBridges(_) => 0
    case IndexError => 0
    case _ => 1
  }

  /** What raising `err` actually raises. The constructor prints its message
      at once, formatting the template with the whole argument tuple as a
      single positional argument; a template with two placeholders then
      finds no second argument and Python 2.7, which numbers bare `{}`
      placeholders automatically, raises `IndexError` instead. */
  function Constructed(err: Error): (raised: Error)
    ensures raised.IndexError? <==> err.IndexError? || Placeholders(err) >= 2
    ensures !raised.IndexError? ==> raised == err
  {
    if Placeholders(err) >= 2 then IndexError else err
  }
}
