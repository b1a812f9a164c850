/** The external tools as an oracle. A command is the argument vector handed
    to the process; its first element, the resolved path of `brctl` or `ip`,
    is abstracted to the `Program` it names. Running a command yields the
    exit code and what the process wrote to its standard output. */
module Shell {
  import opened Wrappers

  datatype Program = Brctl | Ip

  datatype Command = Command(program: Program, args: seq<string>)

  datatype Reply = Reply(code: int, stdout: string)

  /** What the external tools answer; the kernel behind them is not modelled. */
  type Oracle = Command -> Reply

  /** The generic "subprocess exited with code N" failure. */
  datatype SubProcessError = SubProcessError(returnCode: int)

  /** `_runshell`: run the command, wait for it, and turn a non-zero exit
      code into a `SubProcessError` carrying exactly that code; on success
      the caller gets the process's standard output. */
  function RunShell(shell: Oracle, cmd: Command): (r: Result<string, SubProcessError>)
    ensures r.Success? <==> shell(cmd).code == 0
    ensures r.Success? ==> r.value == shell(cmd).stdout
    ensures r.Failure? ==> r.error.returnCode == shell(cmd).code != 0
  {
    var reply := shell(cmd);
    if reply.code != 0 then Failure(SubProcessError(reply.code)) else Success(reply.stdout)
  }

  /** The commands of `plan` that actually get issued when the commands run
      one after another and the first failure ends the sequence (nothing
      is undone afterwards). */
  function Executed(shell: Oracle, plan: seq<Command>): (t: seq<Command>)
    ensures t <= plan
    ensures forall i :: 0 <= i < |t| - 1 ==> shell(t[i]).code == 0
    ensures |t| < |plan| ==> |t| > 0 && shell(t[|t| - 1]).code != 0
  {
    if |plan| == 0 then []
    else if shell(plan[0]).code != 0 then [plan[0]]
    else [plan[0]] + Executed(shell, plan[1..])
  }

  /** A plan of two different commands: the first is always issued, and
      the second exactly when the first succeeds, after it. */
  lemma ExecutedPair(shell: Oracle, a: Command, b: Command)
    requires a != b
    ensures var t := Executed(shell, [a, b]);
      && 1 <= |t| <= 2 && t[0] == a && a !in t[1..]
      && (b in t <==> shell(a).code == 0)
      && (b in t ==> t == [a, b])
  {
    var t := Executed(shell, [a, b]);
    assert t == [a, b][..|t|];
  }
}
