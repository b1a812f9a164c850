/** `BridgeController`: the operations over the system-wide list of bridges,
    built from `brctl show` and the per-bridge operations. */
module BridgeController {
  import opened Wrappers
  import opened Text
  import opened Shell
  import E = Exceptions
  import opened Bridges

  /** `brctl show` without a bridge name: the table of all bridges. */
  const ShowAllCommand: Command := Command(Brctl, ["show"])

  /** One bridge per line after the heading line, named by the line's text
      before its first tab. */
  function BridgesIn(out: string): seq<Bridge> {
    var ls := Lines(out);
    if |ls| == 0 then [] else seq(|ls| - 1, i requires 0 <= i < |ls| - 1 => Bridge(FirstField(ls[i + 1])))
  }

  /** `showall`: runs `brctl show`, drops the heading line and yields one
      bridge per remaining line, in output order; a line that begins with
      a tab (an extra interface of the bridge above) yields a bridge named
      `""`. */
  function ShowAll(shell: Oracle): (r: Run<seq<Bridge>>)
    ensures r.trace == [ShowAllCommand]
    ensures r.result.Success? <==> shell(ShowAllCommand).code == 0
    ensures r.result.Failure? ==> r.result.error == E.ShowBridges(SubProcessError(shell(ShowAllCommand).code))
    ensures r.result.Success? ==>
      var ls := Lines(shell(ShowAllCommand).stdout);
      && |r.result.value| == (if |ls| == 0 then 0 else |ls| - 1)
      && forall i :: 0 <= i < |r.result.value| ==>
           r.result.value[i].name == FirstField(ls[i + 1])
           && (|ls[i + 1]| > 0 && ls[i + 1][0] == '\t' ==> r.result.value[i].name == "")
  {
    match RunShell(shell, ShowAllCommand)
    case Success(out) => Run([ShowAllCommand], Success(BridgesIn(out)))
    case Failure(e) => Run([ShowAllCommand], Failure(E.ShowBridges(e)))
  }

  function Names(bs: seq<Bridge>): (ns: seq<string>)
    ensures |ns| == |bs|
    ensures forall i :: 0 <= i < |bs| ==> ns[i] == bs[i].name
  {
    seq(|bs|, i requires 0 <= i < |bs| => bs[i].name)
  }

  /** The table `brctl show` prints: a heading line, then one line per
      bridge holding its name, a tab and the remaining columns. */
  function Table(heading: string, names: seq<string>, rests: seq<string>): string
    requires |names| == |rests|
  {
    Unlines([heading] + seq(|names|, i requires 0 <= i < |names| => names[i] + "\t" + rests[i]))
  }

  /** Parsing a table recovers exactly the names it was printed with, in
      order, an empty name included. */
  lemma {:induction false} ShowAllRecoversNames(heading: string, names: seq<string>, rests: seq<string>)
    requires |names| == |rests|
    requires '\n' !in heading
    requires forall i :: 0 <= i < |names| ==> '\n' !in names[i] && '\t' !in names[i] && '\n' !in rests[i]
    ensures Names(BridgesIn(Table(heading, names, rests))) == names
  {
    var rows := seq(|names|, i requires 0 <= i < |names| => names[i] + "\t" + rests[i]);
    var ls := [heading] + rows;
    forall i | 0 <= i < |ls|
      ensures '\n' !in ls[i]
    {
      if i > 0 {
        var row := names[i - 1] + "\t" + rests[i - 1];
        assert ls[i] == row;
        assert forall j :: 0 <= j < |row| ==> row[j] != '\n';
      }
    }
    LinesOfUnlines(ls);
    var bs := BridgesIn(Table(heading, names, rests));
    forall i | 0 <= i < |names|
      ensures bs[i].name == names[i]
    {
      FirstFieldOfJoin(names[i], rests[i]);
    }
  }

  /** Position of the first bridge named `name`; `None` when there is none. */
  function FindName(bs: seq<Bridge>, name: string): (k: Option<nat>)
    ensures k.Some? ==> k.value < |bs| && bs[k.value].name == name
    ensures k.Some? ==> forall j :: 0 <= j < k.value ==> bs[j].name != name
    ensures k.None? <==> forall j :: 0 <= j < |bs| ==> bs[j].name != name
  {
    if |bs| == 0 then None
    else if bs[0].name == name then Some(0)
    else match FindName(bs[1..], name)
      case None => None
      case Some(k) => Some(k + 1)
  }

  /** `getbr`: the first bridge of `showall` whose name is exactly `name`,
      or `None`; a bridge it returns always carries the queried name. */
  function GetBr(shell: Oracle, name: string): (r: Run<Option<Bridge>>)
    ensures r.trace == [ShowAllCommand]
    ensures r.result.Success? <==> shell(ShowAllCommand).code == 0
    ensures r.result.Failure? ==> r.result.error == E.ShowBridges(SubProcessError(shell(ShowAllCommand).code))
    ensures r.result.Success? ==>
      (r.result.value.Some? <==> name in Names(BridgesIn(shell(ShowAllCommand).stdout)))
    ensures r.result.Success? && r.result.value.Some? ==> r.result.value.value.name == name
  {
    var s := ShowAll(shell);
    match s.result
    case Failure(e) => Run(s.trace, Failure(e))
    case Success(bs) =>
      match FindName(bs, name)
      case None => Run(s.trace, Success(None))
      case Some(k) => Run(s.trace, Success(Some(bs[k])))
  }

  /** What `delbr` returns when it raises nothing: `False` when the bridge
      is not listed, `None` after deleting it. */
  datatype Deletion = Absent | Deleted

  /** `addbr`: `brctl addbr name`, then `ip link set dev name up`, stopping
      at the first failure, which raises that step's error; on success the
      handle of the new bridge. */
  function AddBr(shell: Oracle, name: string): (r: Run<Bridge>)
    ensures r.trace == Executed(shell, [CommandFor(name, Create), CommandFor(name, LinkUp)])
    ensures shell(CommandFor(name, Create)).code != 0 ==>
      r.result == Failure(E.CreateBridge(SubProcessError(shell(CommandFor(name, Create)).code), name))
    ensures shell(CommandFor(name, Create)).code == 0 && shell(CommandFor(name, LinkUp)).code != 0 ==>
      r.result == Failure(E.SetLinkUp(SubProcessError(shell(CommandFor(name, LinkUp)).code), name))
    ensures r.result.Success? <==>
      shell(CommandFor(name, Create)).code == 0 && shell(CommandFor(name, LinkUp)).code == 0
    ensures r.result.Success? ==> r.result.value.name == name
  {
    var b := Bridge(name);
    var c := Apply(shell, b, Create);
    if c.result.Failure? then Run(c.trace, Failure(c.result.error))
    else
      var u := Apply(shell, b, LinkUp);
      Run(c.trace + u.trace, if u.result.Failure? then Failure(u.result.error) else Success(b))
  }

  /** `addbr` always creates first, attempts the link-up only after a
      successful create, and never deletes what it created. */
  lemma AddBrNoRollback(shell: Oracle, name: string)
    ensures var t := AddBr(shell, name).trace;
      && 1 <= |t| <= 2 && t[0] == CommandFor(name, Create)
      && (CommandFor(name, LinkUp) in t <==> shell(CommandFor(name, Create)).code == 0)
      && CommandFor(name, Remove) !in t
  {
    var create, up, remove := CommandFor(name, Create), CommandFor(name, LinkUp), CommandFor(name, Remove);
    assert create.program != up.program && up.program != remove.program;
    assert create.args[0] != remove.args[0] by { assert create.args[0][0] != remove.args[0][0]; }
    ExecutedPair(shell, create, up);
    var t := Executed(shell, [create, up]);
    assert AddBr(shell, name).trace == t;
    assert remove !in t;
  }

  /** The two steps `delbr` takes on a bridge it found: `link_down`, then
      `_remove`, stopping at the first failure, which raises that step's
      error; success is reported as `Deleted`. */
  function Teardown(shell: Oracle, b: Bridge): (r: Run<Deletion>)
    ensures r.trace == Executed(shell, [CommandFor(b.name, LinkDown), CommandFor(b.name, Remove)])
    ensures r.result.Success? ==> r.result.value == Deleted
    ensures r.result.Success? <==>
      shell(CommandFor(b.name, LinkDown)).code == 0 && shell(CommandFor(b.name, Remove)).code == 0
    ensures shell(CommandFor(b.name, LinkDown)).code != 0 ==>
      r.result == Failure(E.SetLinkDown(SubProcessError(shell(CommandFor(b.name, LinkDown)).code), b.name))
    ensures shell(CommandFor(b.name, LinkDown)).code == 0 && shell(CommandFor(b.name, Remove)).code != 0 ==>
      r.result == Failure(E.DeleteBridge(SubProcessError(shell(CommandFor(b.name, Remove)).code), b.name))
  {
    var d := Apply(shell, b, LinkDown);
    if d.result.Failure? then Run(d.trace, Failure(d.result.error))
    else
      var x := Apply(shell, b, Remove);
      Run(d.trace + x.trace, if x.result.Failure? then Failure(x.result.error) else Success(Deleted))
  }

  /** Whether `brctl show` succeeds and lists a bridge named `name`. */
  predicate Listed(shell: Oracle, name: string) {
    shell(ShowAllCommand).code == 0 && name in Names(BridgesIn(shell(ShowAllCommand).stdout))
  }

  /** `delbr`: looks the bridge up with `getbr`; when it is not listed
      returns `False` having issued nothing more, otherwise takes it down
      with `Teardown`. */
  function DelBr(shell: Oracle, name: string): (r: Run<Deletion>)
    ensures !Listed(shell, name) ==> r.trace == [ShowAllCommand]
    ensures r.result == Success(Absent) <==> shell(ShowAllCommand).code == 0 && !Listed(shell, name)
    ensures shell(ShowAllCommand).code != 0 ==>
      r.result == Failure(E.ShowBridges(SubProcessError(shell(ShowAllCommand).code)))
    ensures Listed(shell, name) ==>
      && r.trace == [ShowAllCommand] + Executed(shell, [CommandFor(name, LinkDown), CommandFor(name, Remove)])
      && r.result == Teardown(shell, Bridge(name)).result
  {
    var g := GetBr(shell, name);
    match g.result
    case Failure(e) => Run(g.trace, Failure(e))
    case Success(None) => Run(g.trace, Success(Absent))
    case Success(Some(b)) =>
      var t := Teardown(shell, b);
      Run(g.trace + t.trace, t.result)
  }

  /** In `delbr` the link goes down strictly before the bridge is deleted,
      a failed link-down means no delete is issued, and a bridge that is
      not listed gets neither command. */
  lemma DelBrOrder(shell: Oracle, name: string)
    ensures var t := DelBr(shell, name).trace;
      && 1 <= |t| <= 3 && t[0] == ShowAllCommand
      && (!Listed(shell, name) ==> CommandFor(name, LinkDown) !in t && CommandFor(name, Remove) !in t)
      && (CommandFor(name, LinkDown) in t ==> t[1] == CommandFor(name, LinkDown))
      && (CommandFor(name, Remove) in t ==>
            t == [ShowAllCommand, CommandFor(name, LinkDown), CommandFor(name, Remove)]
            && shell(CommandFor(name, LinkDown)).code == 0)
  {
    var down, remove := CommandFor(name, LinkDown), CommandFor(name, Remove);
    DistinctTeardownCommands(name);
    if Listed(shell, name) {
      ExecutedPair(shell, down, remove);
      var e := Executed(shell, [down, remove]);
      assert DelBr(shell, name).trace == [ShowAllCommand] + e;
    }
  }

  /** A failure of `delbr` after a successful lookup is the error of the
      step that failed, around that step's exit code and the bridge name. */
  lemma DelBrErrors(shell: Oracle, name: string)
    ensures var r := DelBr(shell, name);
      && (r.result.Failure? && r.result.error.ShowBridges? <==> shell(ShowAllCommand).code != 0)
      && (r.result.Failure? && r.result.error.SetLinkDown? ==>
            r.result.error == E.SetLinkDown(SubProcessError(shell(CommandFor(name, LinkDown)).code), name)
            && CommandFor(name, Remove) !in r.trace)
      && (r.result.Failure? && r.result.error.DeleteBridge? ==>
            r.result.error == E.DeleteBridge(SubProcessError(shell(CommandFor(name, Remove)).code), name))
  {
    DistinctTeardownCommands(name);
  }

  lemma DistinctTeardownCommands(name: string)
    ensures ShowAllCommand != CommandFor(name, LinkDown)
    ensures ShowAllCommand != CommandFor(name, Remove)
    ensures CommandFor(name, LinkDown) != CommandFor(name, Remove)
  {
    var down, remove := CommandFor(name, LinkDown), CommandFor(name, Remove);
    assert down.program != remove.program && down.program != ShowAllCommand.program;
    assert |ShowAllCommand.args| != |remove.args|;
  }

  /** A line of `brctl show` that begins with a tab (an extra interface of
      the bridge listed above it) is read as a bridge named `""`, so
      `getbr("")` finds a bridge whenever such a line follows the heading. */
  lemma ContinuationLineFoundAsEmptyName(shell: Oracle, i: nat)
    requires shell(ShowAllCommand).code == 0
    requires 1 <= i < |Lines(shell(ShowAllCommand).stdout)|
    requires var line := Lines(shell(ShowAllCommand).stdout)[i]; |line| > 0 && line[0] == '\t'
    ensures GetBr(shell, "").result == Success(Some(Bridge("")))
  {
    var ls := Lines(shell(ShowAllCommand).stdout);
    var bs := BridgesIn(shell(ShowAllCommand).stdout);
    var f := FirstField(ls[i]);
    assert f == ls[i][..|f|];
    assert bs[i - 1].name == f == "";
    assert Names(bs)[i - 1] == "";
  }
}
