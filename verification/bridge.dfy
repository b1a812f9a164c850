/** The `Bridge` class: a handle that is nothing but a name, and one
    operation per method. Every operation issues exactly one command and
    is meant to map its failure to the operation's own error; as written,
    five methods raise `IndexError` instead (`ApplyAsWritten`). */
module Bridges {
  import opened Wrappers
  import opened Text
  import opened Shell
  import E = Exceptions

  datatype Bridge = Bridge(name: string)

  /** What an operation did: the commands it issued, in order, and its
      value or the exception it raised. */
  datatype Run<+T> = Run(trace: seq<Command>, result: Result<T, E.Error>)

  /** The per-bridge methods that shell out, named after the source's
      methods; `Create` and `Remove` are `_create` and `_remove`, `Show` is
      the query behind `_show`. `hairpin` and `stp` default their switch to
      on when called without one; `Hairpin(port, true)` and `Stp(true)` are
      those calls. */
  datatype Op =
    | AddIf(iname: string)
    | DelIf(iname: string)
    | Hairpin(port: string, on: bool)
    | Stp(on: bool)
    | SetAgeing(time: int)
    | SetBridgePrio(prio: int)
    | SetFd(time: int)
    | SetHello(time: int)
    | SetMaxAge(time: int)
    | SetPathCost(port: string, cost: int)
    | SetPortPrio(port: string, prio: int)
    | Show
    | LinkUp
    | LinkDown
    | Create
    | Remove

  /** How `hairpin` and `stp` spell a truth value for `brctl`. */
  function OnOff(val: bool): (state: string)
    ensures state == "on" <==> val
    ensures state == "off" <==> !val
  {
    if val then "on" else "off"
  }

  /** The argument vector each method hands to `_runshell`. Only the link
      switches go to `ip`; every `brctl` command names the bridge right
      after its verb, followed by the interface or port if the method
      takes one. */
  function CommandFor(name: string, op: Op): (c: Command)
    ensures c.program == Ip <==> op.LinkUp? || op.LinkDown?
    ensures c.program == Brctl ==> 2 <= |c.args| <= 4 && c.args[1] == name
    ensures c.program == Ip ==> |c.args| == 5 && c.args[3] == name
    ensures (op.AddIf? || op.DelIf?) ==> |c.args| == 3 && c.args[2] == op.iname
    ensures (op.Hairpin? || op.SetPathCost? || op.SetPortPrio?) ==> |c.args| == 4 && c.args[2] == op.port
  {
    match op
    case AddIf(iname) => Command(Brctl, ["addif", name, iname])
    case DelIf(iname) => Command(Brctl, ["delif", name, iname])
    case Hairpin(port, on) => Command(Brctl, ["hairpin", name, port, OnOff(on)])
    case Stp(on) => Command(Brctl, ["stp", name, OnOff(on)])
    case SetAgeing(time) => Command(Brctl, ["setageing", name, IntToString(time)])
    case SetBridgePrio(prio) => Command(Brctl, ["setbridgeprio", name, IntToString(prio)])
    case SetFd(time) => Command(Brctl, ["setfd", name, IntToString(time)])
    case SetHello(time) => Command(Brctl, ["sethello", name, IntToString(time)])
    case SetMaxAge(time) => Command(Brctl, ["setmaxage", name, IntToString(time)])
    case SetPathCost(port, cost) => Command(Brctl, ["setpathcost", name, port, IntToString(cost)])
    case SetPortPrio(port, prio) => Command(Brctl, ["setportprio", name, port, IntToString(prio)])
    case Show => Command(Brctl, ["show", name])
    case LinkUp => Command(Ip, ["link", "set", "dev", name, "up"])
    case LinkDown => Command(Ip, ["link", "set", "dev", name, "down"])
    case Create => Command(Brctl, ["addbr", name])
    case Remove => Command(Brctl, ["delbr", name])
  }

  /** The exception each method's `raise` statement constructs around a
      failed subprocess: the error it is meant to raise. As written, the five
      methods whose template has two placeholders raise `IndexError` instead
      (`ApplyAsWritten`). Its message arguments are the interface or port the method was called
      with, if any, then the bridge name. */
  function ErrorFor(name: string, op: Op, e: SubProcessError): (err: E.Error)
    ensures E.MessageArgs(err) ==
      (if op.AddIf? || op.DelIf? then [op.iname]
       else if op.Hairpin? || op.SetPathCost? || op.SetPortPrio? then [op.port]
       else []) + [name]
  {
    match op
    case AddIf(iname) => E.AddFailed(e, iname, name)
    case DelIf(iname) => E.DeleteFailed(e, iname, name)
    case Hairpin(port, _) => E.SetHairpin(e, port, name)
    case Stp(_) => E.SetSTP(e, name)
    case SetAgeing(_) => E.SetAgeing(e, name)
    case SetBridgePrio(_) => E.SetBridgePriority(e, name)
    case SetFd(_) => E.SetForwardDelay(e, name)
    case SetHello(_) => E.SetHelloTime(e, name)
    case SetMaxAge(_) => E.SetMaxAge(e, name)
    case SetPathCost(port, _) => E.SetPathCost(e, port, name)
    case SetPortPrio(port, _) => E.SetPortPriority(e, port, name)
    case Show => E.ShowDetails(e, name)
    case LinkUp => E.SetLinkUp(e, name)
    case LinkDown => E.SetLinkDown(e, name)
    case Create => E.CreateBridge(e, name)
    case Remove => E.DeleteBridge(e, name)
  }

  /** Runs one method of bridge `b`: exactly one command is issued, the
      method succeeds iff that command exits with 0, and a failure is the
      method's own error around the exact exit code. */
  function Apply(shell: Oracle, b: Bridge, op: Op): (r: Run<string>)
    ensures r.trace == [CommandFor(b.name, op)]
    ensures r.result.Success? <==> shell(CommandFor(b.name, op)).code == 0
    ensures r.result.Success? ==> r.result.value == shell(CommandFor(b.name, op)).stdout
    ensures r.result.Failure? ==>
      r.result.error == ErrorFor(b.name, op, SubProcessError(shell(CommandFor(b.name, op)).code))
  {
    var cmd := CommandFor(b.name, op);
    match RunShell(shell, cmd)
    case Success(out) => Run([cmd], Success(out))
    case Failure(e) => Run([cmd], Failure(ErrorFor(b.name, op, e)))
  }

  /** `Apply` as the source is written: the same command and the same
      success, but a failure raises whatever constructing the method's
      error raises, which is `IndexError` for the errors whose message
      template has two placeholders. */
  function ApplyAsWritten(shell: Oracle, b: Bridge, op: Op): (r: Run<string>)
    ensures r.trace == [CommandFor(b.name, op)]
    ensures r.result.Success? <==> Apply(shell, b, op).result.Success?
    ensures r.result.Success? ==> r == Apply(shell, b, op)
    ensures r.result.Failure? ==> r.result.error == E.Constructed(Apply(shell, b, op).result.error)
  {
    var a := Apply(shell, b, op);
    match a.result
    case Success(_) => a
    case Failure(err) => Run(a.trace, Failure(E.Constructed(err)))
  }

  // ---------------------------------------------------------------------
  // Decoding commands back into operations
  // ---------------------------------------------------------------------

  /** The integer a rendered number denotes, provided it is rendered the
      way `str()` renders it. The canonical-form test makes the numeric part
      of `CommandForDecode` hold by construction; `DecodeCommandFor` is the
      direction that needs `ParseIntOfIntToString`. */
  function DecodeInt(s: string): Option<int> {
    match ParseInt(s)
    case Some(v) => if IntToString(v) == s then Some(v) else None
    case None => None
  }

  function DecodeSwitch(s: string): Option<bool> {
    if s == "on" then Some(true) else if s == "off" then Some(false) else None
  }

  /** `ip link set dev <name> up|down`. */
  function DecodeLink(args: seq<string>): Option<(string, Op)>
    requires |args| == 5
  {
    if args[0] == "link" && args[1] == "set" && args[2] == "dev" then
      if args[4] == "up" then Some((args[3], LinkUp))
      else if args[4] == "down" then Some((args[3], LinkDown))
      else None
    else None
  }

  /** `brctl <verb> <name>`. */
  function DecodeBare(verb: string, name: string): Option<(string, Op)> {
    if verb == "show" then Some((name, Show))
    else if verb == "addbr" then Some((name, Create))
    else if verb == "delbr" then Some((name, Remove))
    else None
  }

  /** `brctl <verb> <name> <x>`. */
  function DecodeUnary(verb: string, name: string, x: string): Option<(string, Op)> {
    if verb == "addif" then Some((name, AddIf(x)))
    else if verb == "delif" then Some((name, DelIf(x)))
    else if verb == "stp" then
      match DecodeSwitch(x)
      case Some(on) => Some((name, Stp(on)))
      case None => None
    else
      match DecodeInt(x)
      case None => None
      case Some(v) =>
        if verb == "setageing" then Some((name, SetAgeing(v)))
        else if verb == "setbridgeprio" then Some((name, SetBridgePrio(v)))
        else if verb == "setfd" then Some((name, SetFd(v)))
        else if verb == "sethello" then Some((name, SetHello(v)))
        else if verb == "setmaxage" then Some((name, SetMaxAge(v)))
        else None
  }

  /** `brctl <verb> <name> <port> <x>`. */
  function DecodeBinary(verb: string, name: string, port: string, x: string): Option<(string, Op)> {
    if verb == "hairpin" then
      match DecodeSwitch(x)
      case Some(on) => Some((name, Hairpin(port, on)))
      case None => None
    else
      match DecodeInt(x)
      case None => None
      case Some(v) =>
        if verb == "setpathcost" then Some((name, SetPathCost(port, v)))
        else if verb == "setportprio" then Some((name, SetPortPrio(port, v)))
        else None
  }

  /** Reads a command as a method call on a named bridge; `None` for any
      command no method issues. */
  function DecodeCommand(c: Command): Option<(string, Op)> {
    var a := c.args;
    if c.program == Ip then
      if |a| == 5 then DecodeLink(a) else None
    else if |a| == 2 then DecodeBare(a[0], a[1])
    else if |a| == 3 then DecodeUnary(a[0], a[1], a[2])
    else if |a| == 4 then DecodeBinary(a[0], a[1], a[2], a[3])
    else None
  }

  /** Every method's command names its bridge and its arguments
      unambiguously: decoding recovers the bridge name and the operation,
      including each number passed through `str()`. */
  lemma DecodeCommandFor(name: string, op: Op)
    ensures DecodeCommand(CommandFor(name, op)) == Some((name, op))
  {
    if op.SetAgeing? || op.SetBridgePrio? || op.SetFd? || op.SetHello? || op.SetMaxAge? {
      DecodeSetter(name, op);
    } else if op.Hairpin? || op.SetPathCost? || op.SetPortPrio? {
      DecodePortSetter(name, op);
    } else if op.AddIf? || op.DelIf? || op.Stp? {
      DecodeInterfaceOrStp(name, op);
    } else {
      DecodeLifecycle(name, op);
    }
  }

  lemma DecodeSetter(name: string, op: Op)
    requires op.SetAgeing? || op.SetBridgePrio? || op.SetFd? || op.SetHello? || op.SetMaxAge?
    ensures DecodeCommand(CommandFor(name, op)) == Some((name, op))
  {
    var v := match op
      case SetAgeing(t) => t
      case SetBridgePrio(p) => p
      case SetFd(t) => t
      case SetHello(t) => t
      case SetMaxAge(t) => t;
    ParseIntOfIntToString(v);
    assert DecodeInt(IntToString(v)) == Some(v);
    var a := CommandFor(name, op).args;
    assert a[0] != "addif" && a[0] != "delif" && a[0] != "stp";
  }

  lemma DecodePortSetter(name: string, op: Op)
    requires op.Hairpin? || op.SetPathCost? || op.SetPortPrio?
    ensures DecodeCommand(CommandFor(name, op)) == Some((name, op))
  {
    if !op.Hairpin? {
      var v := if op.SetPathCost? then op.cost else op.prio;
      ParseIntOfIntToString(v);
      assert DecodeInt(IntToString(v)) == Some(v);
    }
  }

  lemma DecodeInterfaceOrStp(name: string, op: Op)
    requires op.AddIf? || op.DelIf? || op.Stp?
    ensures DecodeCommand(CommandFor(name, op)) == Some((name, op))
  {
  }

  lemma DecodeLifecycle(name: string, op: Op)
    requires op.Show? || op.LinkUp? || op.LinkDown? || op.Create? || op.Remove?
    ensures DecodeCommand(CommandFor(name, op)) == Some((name, op))
  {
  }

  /** Conversely, every command that decodes is exactly the command of the
      method it decodes to, so no two method calls share a command. */
  lemma CommandForDecode(c: Command)
    requires DecodeCommand(c).Some?
    ensures CommandFor(DecodeCommand(c).value.0, DecodeCommand(c).value.1) == c
  {
    var a := c.args;
    if c.program == Ip {
      LinkInverse(a);
      assert a == [a[0], a[1], a[2], a[3], a[4]];
    } else if |a| == 2 {
      BareInverse(a[0], a[1]);
      assert a == [a[0], a[1]];
    } else if |a| == 3 {
      ThreeArgsInverse(c);
    } else {
      FourArgsInverse(c);
    }
  }

  lemma ThreeArgsInverse(c: Command)
    requires c.program == Brctl && |c.args| == 3 && DecodeCommand(c).Some?
    ensures CommandFor(DecodeCommand(c).value.0, DecodeCommand(c).value.1) == c
  {
    var a := c.args;
    UnaryInverse(a[0], a[1], a[2]);
    assert a == [a[0], a[1], a[2]];
  }

  lemma FourArgsInverse(c: Command)
    requires c.program == Brctl && |c.args| == 4 && DecodeCommand(c).Some?
    ensures CommandFor(DecodeCommand(c).value.0, DecodeCommand(c).value.1) == c
  {
    var a := c.args;
    BinaryInverse(a[0], a[1], a[2], a[3]);
    assert a == [a[0], a[1], a[2], a[3]];
  }

  lemma LinkInverse(args: seq<string>)
    requires |args| == 5 && DecodeLink(args).Some?
    ensures var (n, op) := DecodeLink(args).value;
      CommandFor(n, op) == Command(Ip, [args[0], args[1], args[2], args[3], args[4]])
  {
  }

  lemma BareInverse(verb: string, name: string)
    requires DecodeBare(verb, name).Some?
    ensures var (n, op) := DecodeBare(verb, name).value;
      CommandFor(n, op) == Command(Brctl, [verb, name])
  {
  }

  lemma UnaryInverse(verb: string, name: string, x: string)
    requires DecodeUnary(verb, name, x).Some?
    ensures var (n, op) := DecodeUnary(verb, name, x).value;
      CommandFor(n, op) == Command(Brctl, [verb, name, x])
  {
    if verb != "addif" && verb != "delif" && verb != "stp" {
      assert IntToString(DecodeInt(x).value) == x;
    }
  }

  lemma BinaryInverse(verb: string, name: string, port: string, x: string)
    requires DecodeBinary(verb, name, port, x).Some?
    ensures var (n, op) := DecodeBinary(verb, name, port, x).value;
      CommandFor(n, op) == Command(Brctl, [verb, name, port, x])
  {
    if verb != "hairpin" {
      assert IntToString(DecodeInt(x).value) == x;
    }
  }

  // ---------------------------------------------------------------------
  // Failure mapping
  // ---------------------------------------------------------------------

  /** A failed method raises its own error that wraps the subprocess
      failure unchanged and carries the bridge name, plus the interface or
      port for the methods that take one. */
  lemma ErrorCarriesContext(name: string, op: Op, e: SubProcessError)
    ensures var err := ErrorFor(name, op, e);
      && !err.IndexError? && !err.ShowBridges?
      && err.inner == e && err.bridge == name
      && ((op.AddIf? || op.DelIf?) ==> (err.AddFailed? || err.DeleteFailed?) && err.iname == op.iname)
      && ((op.Hairpin? || op.SetPathCost? || op.SetPortPrio?) ==>
            (err.SetHairpin? || err.SetPathCost? || err.SetPortPriority?) && err.port == op.port)
  {
  }

  /** The methods whose error template names two things (the interface or
      port, and the bridge). */
  predicate TwoPlaceholderError(op: Op) {
    op.AddIf? || op.DelIf? || op.Hairpin? || op.SetPathCost? || op.SetPortPrio?
  }

  /** As written, a failing method raises `IndexError` exactly when its
      error names an interface or port as well as the bridge; every other
      method, and every success, behaves as intended. */
  lemma AsWrittenDiffersOnTwoPlaceholders(shell: Oracle, b: Bridge, op: Op)
    ensures var w := ApplyAsWritten(shell, b, op);
      && (w.result.Failure? ==> (w.result.error.IndexError? <==> TwoPlaceholderError(op)))
      && (!TwoPlaceholderError(op) ==> w == Apply(shell, b, op))
      && (w.result.Failure? && TwoPlaceholderError(op) ==> w != Apply(shell, b, op))
  {
  }

  /** The smallest witness: `addif("eth0")` on `br0` whose command exits
      with 1 raises `IndexError`, where `AddFailed` naming both was meant. */
  lemma AddIfFailureRaisesIndexError(shell: Oracle)
    requires shell(Command(Brctl, ["addif", "br0", "eth0"])).code == 1
    ensures ApplyAsWritten(shell, Bridge("br0"), AddIf("eth0")).result == Failure(E.IndexError)
    ensures Apply(shell, Bridge("br0"), AddIf("eth0")).result
      == Failure(E.AddFailed(SubProcessError(1), "eth0", "br0"))
  {
  }

  // ---------------------------------------------------------------------
  // Queries on `brctl show <bridge>`
  // ---------------------------------------------------------------------

  /** Python's `xs[k:]`: empty when the list is too short. */
  function Drop<T>(xs: seq<T>, k: nat): (ys: seq<T>)
    ensures |ys| == if |xs| <= k then 0 else |xs| - k
    ensures forall i :: 0 <= i < |ys| ==> ys[i] == xs[i + k]
  {
    if |xs| <= k then [] else xs[k..]
  }

  /** The whitespace tokens `brctl show <bridge>` printed. */
  function ShowTokens(shell: Oracle, b: Bridge): seq<string> {
    Words(shell(CommandFor(b.name, Show)).stdout)
  }

  /** `_show`: the whitespace tokens of the output after the first seven
      (the column headings of `brctl show`). */
  function Details(shell: Oracle, b: Bridge): (r: Run<seq<string>>)
    ensures r.trace == [CommandFor(b.name, Show)]
    ensures r.result.Success? <==> shell(CommandFor(b.name, Show)).code == 0
    ensures r.result.Failure? ==>
      r.result.error == E.ShowDetails(SubProcessError(shell(CommandFor(b.name, Show)).code), b.name)
    ensures r.result.Success? ==>
      var ws := ShowTokens(shell, b);
      && |r.result.value| == (if |ws| <= 7 then 0 else |ws| - 7)
      && forall i :: 0 <= i < |r.result.value| ==> r.result.value[i] == ws[i + 7]
  {
    var s := Apply(shell, b, Show);
    match s.result
    case Success(out) => Run(s.trace, Success(Drop(Words(out), 7)))
    case Failure(e) => Run(s.trace, Failure(e))
  }

  /** `getid`: token 1 after the headings (token 8 of the whole output);
      too few tokens raise `IndexError`. */
  function GetId(shell: Oracle, b: Bridge): (r: Run<string>)
    ensures r.trace == [CommandFor(b.name, Show)]
    ensures r.result.Failure? && r.result.error.ShowDetails? <==> shell(CommandFor(b.name, Show)).code != 0
    ensures r.result.Failure? && !r.result.error.IndexError? ==>
      r.result.error == E.ShowDetails(SubProcessError(shell(CommandFor(b.name, Show)).code), b.name)
    ensures r.result == Failure(E.IndexError) <==>
      shell(CommandFor(b.name, Show)).code == 0 && |ShowTokens(shell, b)| <= 8
    ensures r.result.Success? ==> r.result.value == ShowTokens(shell, b)[8]
  {
    var d := Details(shell, b);
    match d.result
    case Failure(e) => Run(d.trace, Failure(e))
    case Success(t) => Run(d.trace, if |t| > 1 then Success(t[1]) else Failure(E.IndexError))
  }

  /** `getifs`: every token from 3 on after the headings; never fails on
      short output, it is then empty. */
  function GetIfs(shell: Oracle, b: Bridge): (r: Run<seq<string>>)
    ensures r.trace == [CommandFor(b.name, Show)]
    ensures r.result.Success? <==> shell(CommandFor(b.name, Show)).code == 0
    ensures r.result.Failure? ==>
      r.result.error == E.ShowDetails(SubProcessError(shell(CommandFor(b.name, Show)).code), b.name)
    ensures r.result.Success? ==>
      var ws := ShowTokens(shell, b);
      && |r.result.value| == (if |ws| <= 10 then 0 else |ws| - 10)
      && forall i :: 0 <= i < |r.result.value| ==> r.result.value[i] == ws[i + 10]
  {
    var d := Details(shell, b);
    match d.result
    case Failure(e) => Run(d.trace, Failure(e))
    case Success(t) => Run(d.trace, Success(Drop(t, 3)))
  }

  /** `getstp`: whether token 2 after the headings is literally `yes`; too
      few tokens raise `IndexError`. */
  function GetStp(shell: Oracle, b: Bridge): (r: Run<bool>)
    ensures r.trace == [CommandFor(b.name, Show)]
    ensures r.result.Failure? && r.result.error.ShowDetails? <==> shell(CommandFor(b.name, Show)).code != 0
    ensures r.result.Failure? && !r.result.error.IndexError? ==>
      r.result.error == E.ShowDetails(SubProcessError(shell(CommandFor(b.name, Show)).code), b.name)
    ensures r.result == Failure(E.IndexError) <==>
      shell(CommandFor(b.name, Show)).code == 0 && |ShowTokens(shell, b)| <= 9
    ensures r.result.Success? ==> (r.result.value <==> ShowTokens(shell, b)[9] == "yes")
  {
    var d := Details(shell, b);
    match d.result
    case Failure(e) => Run(d.trace, Failure(e))
    case Success(t) => Run(d.trace, if |t| > 2 then Success(t[2] == "yes") else Failure(E.IndexError))
  }

  /** The queries read back what `brctl show <bridge>` prints: seven column
      headings, then the bridge's name, id, STP flag and interfaces, laid
      out with any whitespace. */
  lemma QueriesReadShowOutput(shell: Oracle, b: Bridge, lead: string, heading: seq<string>,
                              bname: string, id: string, flag: string, ifs: seq<string>,
                              seps: seq<string>)
    requires |heading| == 7
    requires Separated(lead, heading + [bname, id, flag] + ifs, seps)
    requires shell(CommandFor(b.name, Show)) == Reply(0, Spaced(lead, heading + [bname, id, flag] + ifs, seps))
    ensures GetId(shell, b).result == Success(id)
    ensures GetStp(shell, b).result == Success(flag == "yes")
    ensures GetIfs(shell, b).result == Success(ifs)
  {
    var ws := heading + [bname, id, flag] + ifs;
    WordsOfSpaced(lead, ws, seps);
    assert ShowTokens(shell, b) == ws;
    assert ws[8] == id && ws[9] == flag;
    assert ws[10..] == ifs;
  }
}
