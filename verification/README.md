# pybrctl in Dafny

A model of `pybrctl`, a Python binding around the Linux `brctl` and `ip`
tools. The model covers the two classes. `Bridge` is a handle holding only a
bridge name; each of its methods builds one argument vector, runs it, and
on a non-zero exit code constructs its own exception to raise (five of
them raise `IndexError` instead, see Findings). `BridgeController`
creates, deletes, lists and looks up bridges by running `brctl show` and
reading its output.

The tools are an oracle, `Shell.Oracle = Command -> Reply`. It maps an
argument vector to an exit code and the process's standard output. The first
element of the vector is the tool's resolved path, and it is abstracted to
`Brctl` or `Ip`. Every operation is a pure function. It returns a `Run`: the
commands issued, in order, and either a value or the exception raised.
Exceptions form one tagged `Exceptions.Error`. Each constructor is named
after a `BridgeException` subclass and carries the wrapped subprocess
failure and the source's message arguments. `IndexError` stands for
Python's own error in two places: a query reading a token the output does
not have, and formatting a message template with two placeholders from a
single argument (`Exceptions.Constructed`).

An oracle that looks only at the command is enough here, because no
operation issues the same command twice. `AddBr` issues at most `addbr`
then `link up`. `DelBr` issues at most `show`, `link down`, `delbr`
(`DelBrOrder`). So any sequence of replies is some oracle's answers.

Modules:
- `Wrappers`: `Option` and `Result`.
- `Text`: Python's `str.split()`, `splitlines()` on `'\n'`,
  `split("\t")[0]` and `str()` of an integer. Each comes with an inverse
  (tokens laid out with any whitespace, joining lines, a tab join, integer
  parsing) and round-trip lemmas.
- `Shell`: commands, replies, `_runshell`, and `Executed`. `Executed` is a
  reference definition of "run a plan of commands in order and stop at the
  first failure".
- `Exceptions`: the exception taxonomy, the number of placeholders in each
  class's message template, and what constructing an exception raises.
- `Bridges`: the `Bridge` methods as an `Op` per method. `CommandFor` gives
  the argument vector and `ErrorFor` the exception. `DecodeCommand` reads a
  command back as a method call and is proved inverse to `CommandFor` in
  both directions. The `brctl show <bridge>` queries are here too.
- `BridgeController`: `showall`, `getbr`, `addbr`, `delbr`.

Behaviours of the code that the model keeps as written:
- `_show` drops the first seven tokens: the headings `bridge name bridge id
  STP enabled interfaces`. After that, token 0 is the bridge's name, token 1
  its id, token 2 its STP flag, and tokens 3 on its interfaces. The
  positions are fixed, so any other layout is misread. `getid` and `getstp`
  raise `IndexError` on short output. `getifs` returns an empty list.
- `showall` names each bridge by the text before the first tab of each line
  after the heading line. `brctl` prints a bridge's extra interfaces on
  lines that begin with tabs, and each such line becomes a bridge named `""`.
  So `getbr("")` finds a bridge whenever a listed bridge has a second
  interface (`ContinuationLineFoundAsEmptyName`).
- `delbr` returns `False` when the bridge is not listed. After deleting it,
  `delbr` returns `None`. The model distinguishes these as `Absent` and
  `Deleted`. In Python both are falsy.
- A `BridgeException` formats its message as soon as it is constructed,
  passing the whole argument tuple as one argument. Under Python 2.7, the five exceptions
  whose template has two placeholders (`addif`, `delif`, `hairpin`,
  `setpathcost`, `setportprio`) therefore raise `IndexError` instead. This
  is a defect (see Findings): `Bridges.Apply` models the intended typed
  exception and `Bridges.ApplyAsWritten` the code as written.
- `addbr` does not undo the new bridge when bringing its link up fails.
  `delbr` does not restore the link when the delete fails.

## Model

| member | source | states |
|---|---|---|
| `Text.Words` | pybrctl/pybrctl.py:101 | every token `split()` yields is non-empty and contains no whitespace |
| `Text.WordsKeepText` | pybrctl/pybrctl.py:101 | the tokens, concatenated in order, are exactly the input's non-whitespace characters: splitting drops only whitespace and keeps order |
| `Text.WordsAfterSpace` | pybrctl/pybrctl.py:101 | leading whitespace of any kind and length yields no token: the tokens of `sp + t` are those of `t` |
| `Text.WordsOfWordThen` | pybrctl/pybrctl.py:101 | a word followed by whitespace or by the end of the text is read as one whole token, followed by the tokens of the rest |
| `Text.WordsOfSpaced` | pybrctl/pybrctl.py:101 | `split()` recovers any list of non-empty, whitespace-free tokens from any layout of them with non-empty whitespace runs between them and optional whitespace before and after |
| `Text.Lines` | pybrctl/pybrctl.py:173 | no line `splitlines()` yields contains a line terminator |
| `Text.UnlinesOfLines` | pybrctl/pybrctl.py:173 | re-terminating the lines gives back the text, plus a final terminator if the text lacked one: no characters are lost or reordered |
| `Text.LinesOfUnlines` | pybrctl/pybrctl.py:173 | `splitlines()` recovers any list of terminator-free lines from their terminated concatenation, empty lines included |
| `Text.FirstField` | pybrctl/pybrctl.py:174 | the field is the longest tab-free prefix of the line: a prefix, without a tab, followed by a tab or the line's end (so `""` for a line that starts with a tab) |
| `Text.FirstFieldOfJoin` | pybrctl/pybrctl.py:174 | for a tab-free name, the first field of `name + "\t" + rest`, and of `name` alone, is the name |
| `Text.NatToString` | pybrctl/pybrctl.py:51 | `str()` of a natural is a non-empty digit string whose first digit is `0` only for zero |
| `Text.IntToString` | pybrctl/pybrctl.py:51 | `str()` of an integer is non-empty and starts with `-` exactly for negative values |
| `Text.DigitsValueOfNatToString` | pybrctl/pybrctl.py:51 | the digits `str()` prints for a natural denote that natural |
| `Text.ParseIntOfIntToString` | pybrctl/pybrctl.py:48-95 | parsing the rendering of any integer passed to a numeric setter gives back that integer |
| `Shell.RunShell` | pybrctl/pybrctl.py:265-271 | `_runshell` succeeds exactly when the exit code is 0 and then yields the process's output; otherwise it fails with a `SubProcessError` carrying that exact, non-zero code |
| `Shell.Executed` | pybrctl/pybrctl.py:151-156 | the commands of a plan actually issued form a prefix of the plan; every one but the last succeeded; if the prefix is short, its last command failed |
| `Shell.ExecutedPair` | pybrctl/pybrctl.py:151-156 | in a two-step sequence the first command is always issued, once; the second is issued iff the first succeeded, and then after it |
| `Bridges.OnOff` | pybrctl/pybrctl.py:30-44 | `hairpin` and `stp` send `on` exactly for true and `off` exactly for false |
| `Bridges.CommandFor` | pybrctl/pybrctl.py:16-147 | the exact argv of each method, with `str()` for numbers and `on`/`off` for switches; only `link_up`/`link_down` run `ip`, with the bridge name as the device; every `brctl` command names the bridge right after its verb, then the interface or port if the method takes one |
| `Bridges.ErrorFor` | pybrctl/pybrctl.py:16-147 | the exception each method's `raise` statement constructs around a failed subprocess, which is the error it is meant to raise (as written, the five two-placeholder methods raise `IndexError`, see `Bridges.ApplyAsWritten`), with message arguments the interface or port it was called with, if any, then the bridge name |
| `Bridges.Apply` | pybrctl/pybrctl.py:16-147 | each `Bridge` method issues exactly its own command and nothing else; it succeeds iff that command exits 0, carrying `_runshell`'s output for `_show` to read; otherwise it raises the method's intended error (`ErrorFor`) wrapping the exact exit code |
| `Exceptions.Placeholders` | pybrctl/pybrctl.py:211-263 | each exception class's template has exactly one `{}` per message argument its raise sites pass (two for the interface and port errors, none for `ShowBridges`, one otherwise) |
| `Exceptions.Constructed` | pybrctl/pybrctl.py:197-263 | constructing an exception raises `IndexError` exactly when its class's template has two placeholders, since the argument tuple is formatted as a single argument; any other exception is raised unchanged |
| `Bridges.ApplyAsWritten` | pybrctl/pybrctl.py:16-147 | as written, a method issues the same single command and succeeds exactly when the intended one does; a failure raises what constructing the intended error raises |
| `Bridges.AsWrittenDiffersOnTwoPlaceholders` | pybrctl/pybrctl.py:16-95 | as written, a failing method raises `IndexError` iff it is `addif`, `delif`, `hairpin`, `setpathcost` or `setportprio`, and then differs from the intended behaviour; every other method behaves exactly as intended |
| `Bridges.AddIfFailureRaisesIndexError` | pybrctl/pybrctl.py:16-21 | `addif("eth0")` on `br0` whose command exits with 1 raises `IndexError` as written, where `AddFailed` wrapping code 1 with `eth0` and `br0` was intended |
| `Bridges.DecodeCommandFor` | pybrctl/pybrctl.py:16-147 | the argument vector of every method, including each `str()`-rendered number and each on/off word, decodes back to the same bridge name and the same method with the same arguments, so distinct method calls never share a command |
| `Bridges.DecodeSetter` | pybrctl/pybrctl.py:48-81 | the argument vector of each single-number setter (`setageing`, `setbridgeprio`, `setfd`, `sethello`, `setmaxage`) decodes back to the bridge name, the setter and its value |
| `Bridges.DecodePortSetter` | pybrctl/pybrctl.py:30-95 | the argument vectors of `hairpin`, `setpathcost` and `setportprio` decode back to the bridge name, the method, its port and its on/off flag or number |
| `Bridges.CommandForDecode` | pybrctl/pybrctl.py:16-147 | every command that decodes is exactly the argument vector of the call it decodes to: decoding accepts nothing but the argument vectors the methods build |
| `Bridges.ErrorCarriesContext` | pybrctl/pybrctl.py:16-147 | a method's intended error wraps the subprocess failure unchanged, names the bridge, and carries the interface (`addif`/`delif`) or port (`hairpin`, `setpathcost`, `setportprio`) it was called with; it is never a `showall` error or an `IndexError` |
| `Bridges.Drop` | pybrctl/pybrctl.py:101 | a Python slice `xs[k:]` is empty when the list is short, and otherwise holds the elements from position k on, in order |
| `Bridges.Details` | pybrctl/pybrctl.py:97-103 | `_show` issues `brctl show <bridge>` only; on success it returns the output's whitespace tokens with the first seven removed, element by element; on failure it raises `ShowDetails` with the exit code and bridge name |
| `Bridges.GetId` | pybrctl/pybrctl.py:105-107 | `getid` returns the output's token 8 (token 1 after the headings); it raises `IndexError` exactly when the command succeeded with at most 8 tokens, and `ShowDetails` with the exit code and bridge name exactly when the command failed |
| `Bridges.GetIfs` | pybrctl/pybrctl.py:109-111 | `getifs` returns the output's tokens from 10 on (3 on after the headings); it is empty on short output and fails only when the command fails, then raising `ShowDetails` with the exit code and bridge name |
| `Bridges.GetStp` | pybrctl/pybrctl.py:113-115 | `getstp` is true iff the output's token 9 (token 2 after the headings) is literally `yes`; it raises `IndexError` exactly when the command succeeded with at most 9 tokens, and `ShowDetails` with the exit code and bridge name exactly when the command failed |
| `Bridges.QueriesReadShowOutput` | pybrctl/pybrctl.py:97-115 | for output printed as seven headings and then a bridge's name, id, STP flag and interfaces, in any whitespace layout, `getid` returns the id, `getstp` returns whether the flag is `yes`, and `getifs` returns exactly the interfaces |
| `BridgeController.ShowAll` | pybrctl/pybrctl.py:169-177 | `showall` issues `brctl show` only; it returns one bridge per output line after the first, in output order; each is named by its line's text before the first tab, and `""` for a line that starts with a tab; a failure raises `ShowBridges` with the exit code |
| `BridgeController.ShowAllRecoversNames` | pybrctl/pybrctl.py:169-175 | for a table printed as a heading line and then one `name<TAB>rest` line per bridge, `showall` yields exactly the printed names in order, empty names included |
| `BridgeController.FindName` | pybrctl/pybrctl.py:182-185 | the scan finds the first position whose name equals the query exactly, with no earlier match, and finds nothing iff no position matches |
| `BridgeController.GetBr` | pybrctl/pybrctl.py:179-185 | `getbr` issues `brctl show` only; it finds a bridge iff the query is among the listed names, and a found bridge carries exactly the queried name; a failed listing raises `ShowBridges` |
| `BridgeController.AddBr` | pybrctl/pybrctl.py:150-156 | the commands `addbr` issues are the plan `brctl addbr name`, `ip link set dev name up`, cut at the first failure; a failed create raises `CreateBridge` and a failed link-up raises `SetLinkUp`, each with its exit code and the name; it succeeds iff both succeed, returning the handle named `name` |
| `BridgeController.AddBrNoRollback` | pybrctl/pybrctl.py:151-156 | `addbr` always issues the create first; it issues the link-up iff the create succeeded; it never issues a delete of the bridge it created |
| `BridgeController.Teardown` | pybrctl/pybrctl.py:162-164 | for a found bridge, the link-down and delete commands are issued in that order and cut at the first failure; a failed link-down raises `SetLinkDown` and a failed delete raises `DeleteBridge`, each with its exit code and the name; success iff both succeed |
| `BridgeController.DelBr` | pybrctl/pybrctl.py:158-166 | `delbr` reports `Absent` (Python `False`) iff the listing succeeded without the name, and then it issued only `brctl show`; a failed listing raises `ShowBridges` with its exit code; for a listed bridge the commands are the listing, then link down and delete cut at the first failure, with `Teardown`'s outcome |
| `BridgeController.DelBrOrder` | pybrctl/pybrctl.py:159-166 | `delbr` issues one to three commands, the listing first; an unlisted bridge gets no link-down and no delete; a link-down is the second command; a delete is issued only as the third command, after a successful link-down |
| `BridgeController.DelBrErrors` | pybrctl/pybrctl.py:131-147 | `delbr` raises `ShowBridges` iff the listing failed; a `SetLinkDown` error carries the link-down's exit code and the name, and no delete was issued; a `DeleteBridge` error carries the delete's exit code and the name |
| `BridgeController.ContinuationLineFoundAsEmptyName` | pybrctl/pybrctl.py:172-185 | if any output line after the heading begins with a tab, `getbr("")` returns a bridge named `""` |

## Left out

- Spawning processes, waiting on them and reading their pipes (`_runshell`, pybrctl/pybrctl.py:265-271): the tools are the oracle.
- The `which` lookup of the `ip` and `brctl` paths at import time (pybrctl/pybrctl.py:273-280): paths are abstracted to `Brctl` and `Ip`. A failed lookup, which leaves the path unusable, is not modelled.
- What the kernel does when the tools run. Claims such as "after `addbr`, `getbr` finds the bridge" depend on the tools, not on this code.
- Exception message text and the `print` in every exception's constructor (pybrctl/pybrctl.py:187-209 and the `msg_template`s). The model keeps each exception's kind, its wrapped cause and its arguments, and whether formatting the message fails (`Exceptions.Constructed`).
- `NoSuchBridgeException` (pybrctl/pybrctl.py:259-260): declared but never raised.
- `showmacs` and `showstp` (pybrctl/pybrctl.py:117-123): they only raise `NotImplementedError`.
- `__str__` and `__repr__` (pybrctl/pybrctl.py:8-14): display only.
- `Text.Lines`: splits on `'\n'` only. Python 2's `splitlines()` also ends lines at `'\r'` and `"\r\n"`.
- `Text.Words`: whitespace is the Python 2 byte-string set (space, tab, newline, carriage return, vertical tab, form feed), not Unicode whitespace.
- `Bridges.CommandFor`: numeric setters take an `int` rendered by `str()`. Python accepts any object there (a float, a string) and sends its `str()`.
- `Bridges.Apply`: states the intended typed exception. As written, `addif`, `delif`, `hairpin`, `setpathcost` and `setportprio` raise `IndexError` on failure instead; `Bridges.ApplyAsWritten` models that (see Findings).
- `Bridges.Apply`: its success value is `_runshell`'s output. Only `_show` reads that output; the public methods `addif` to `setportprio` and `link_up`, `link_down`, `_create` and `_remove` have no `return` and give Python `None`.
- `Bridges.ApplyAsWritten`: on success it carries `_runshell`'s output like `Bridges.Apply`. The public methods it stands for return `None` there.
- `Bridges.ErrorFor`: is the exception each `raise` statement constructs, not what is raised. For `addif`, `delif`, `hairpin`, `setpathcost` and `setportprio`, building it raises `IndexError` (`Exceptions.Constructed`).
- `Exceptions.Constructed`: follows Python 2.7's `str.format`, which numbers bare `{}` placeholders automatically. Under Python 2.6, every template with a `{}` raises `ValueError` instead; that interpreter is not modelled.
- `Bridges.ErrorCarriesContext`: is about the intended exceptions. For the five methods above, the exception as written is `IndexError`, which carries no context.
- The `val=True` defaults of `hairpin` and `stp` (pybrctl/pybrctl.py:30, 39) are not a separate case: a call without the switch is `Hairpin(port, true)` or `Stp(true)`.
- `Bridges.OnOff`: the `hairpin`/`stp` flag is a `bool`. Python tests the truthiness of any value.
- `BridgeController.DelBr`: `if bridge:` is modelled as "a bridge was found". A Python `Bridge` object is always truthy, even one named `""`.

## Findings

| source | as written | input that shows it | evidently intended | confidence | as-written member | corrected member |
|---|---|---|---|---|---|---|
| pybrctl/pybrctl.py:197-209 | `BridgeException.__init__` prints `msg_template.format(self.msg_args)`, passing the argument tuple as one positional argument; the templates of `AddFailedException`, `DeleteFailedException`, `SetHairpinException`, `SetPathCostException` and `SetPortPriorityException` (lines 211-218, 238-242) have two placeholders, so under Python 2.7 formatting raises `IndexError` | `Bridge("br0").addif("eth0")` when `brctl addif br0 eth0` exits with 1 | `AddFailedException` wrapping exit code 1 and naming `eth0` and `br0` (format with `*self.msg_args`) | high; not executed | `Bridges.ApplyAsWritten`, shown by `Bridges.AsWrittenDiffersOnTwoPlaceholders` and `Bridges.AddIfFailureRaisesIndexError` | `Bridges.Apply`, with `Bridges.ErrorCarriesContext` |
