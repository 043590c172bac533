/** Replies, errors and policy bits shared by every part of the result engine.
    A reply entry carries the command header of one node's answer (its status code
    and transaction flags) and its payload; the engine only ever looks at those. */
module Replies {

  /** Transaction flag: more replies of this transaction follow (DNET_FLAGS_MORE). */
  const FlagMore: bv64 := 1

  /** Exceptions-policy bits of a session. */
  const NoExceptions: bv32 := 0x00
  const ThrowAtStart: bv32 := 0x01
  const ThrowAtWait: bv32 := 0x02
  const ThrowAtGet: bv32 := 0x04
  const ThrowAtIteratorEnd: bv32 := 0x08
  const DefaultExceptions: bv32 := ThrowAtWait | ThrowAtGet | ThrowAtIteratorEnd

  /** errno values used by the engine (errors carry them negated). */
  const ENOENT: int := 2
  const ENXIO: int := 6

  datatype Option<T> = None | Some(value: T)

  /** The command header of a reply (dnet_cmd): the fields the engine reads. */
  datatype Command = Command(status: int, flags: bv64)

  /** One node's reply: its command header and its payload bytes. */
  datatype Entry = Entry(command: Command, data: seq<bv8>) {
    function Status(): int { command.status }

    /** A terminal reply closes its transaction: no "more" flag. */
    predicate IsTerminal() { command.flags & FlagMore == 0 }

    /** What get(T &) looks for: a successful reply that carries data. */
    predicate IsUsable() { Status() == 0 && |data| != 0 }
  }

  /** A default-constructed entry: success status and no payload. */
  const DefaultEntry := Entry(Command(0, 0), [])

  /** An error_info: either empty or an error code (the message is not modelled). */
  datatype ErrorInfo = NoError | Err(code: int)

  /** Whether an operation returned normally or threw the given error. */
  datatype Outcome = Pass | Fail(error: ErrorInfo)

  /** A value, or the error an operation threw instead of returning. */
  datatype Result<T> = Success(value: T) | Failure(error: ErrorInfo)

  /** The error create_error builds from a failed command: its status code. */
  function CommandError(c: Command): (e: ErrorInfo) {
    Err(c.status)
  }

  /** `if (policy & bit) error.throw_error()`: throwing an empty error does
      nothing, so the error is thrown exactly when the policy has the bit and
      the error is not empty. */
  function Raised(policy: bv32, bit: bv32, e: ErrorInfo): (o: Outcome)
    ensures o.Fail? <==> policy & bit != 0 && e != NoError
    ensures o.Fail? ==> o.error == e
  {
    if policy & bit != 0 && e != NoError then Fail(e) else Pass
  }

  /** The entries the filter keeps, in arrival order. */
  function Filtered(f: Entry -> bool, s: seq<Entry>): (r: seq<Entry>)
    ensures |r| <= |s|
  {
    if s == [] then [] else Filtered(f, s[..|s| - 1]) + (if f(s[|s| - 1]) then [s[|s| - 1]] else [])
  }

  /** The command headers of the terminal entries, in arrival order. */
  function Terminals(s: seq<Entry>): (r: seq<Command>)
    ensures |r| <= |s|
  {
    if s == [] then [] else Terminals(s[..|s| - 1]) + (if s[|s| - 1].IsTerminal() then [s[|s| - 1].command] else [])
  }

  lemma FilteredSnoc(f: Entry -> bool, s: seq<Entry>, e: Entry)
    ensures Filtered(f, s + [e]) == Filtered(f, s) + (if f(e) then [e] else [])
  {
    assert (s + [e])[..|s|] == s;
  }

  lemma TerminalsSnoc(s: seq<Entry>, e: Entry)
    ensures Terminals(s + [e]) == Terminals(s) + (if e.IsTerminal() then [e.command] else [])
  {
    assert (s + [e])[..|s|] == s;
  }

  /** Filtering distributes over concatenation: filtering pieces of a stream
      one after another gives the filtered stream. */
  lemma {:induction false} FilteredConcat(f: Entry -> bool, s: seq<Entry>, t: seq<Entry>)
    ensures Filtered(f, s + t) == Filtered(f, s) + Filtered(f, t)
    decreases |t|
  {
    if t == [] {
      assert s + t == s;
    } else {
      var t' := t[..|t| - 1];
      var e := t[|t| - 1];
      assert t == t' + [e];
      assert s + t == (s + t') + [e];
      FilteredConcat(f, s, t');
      FilteredSnoc(f, s + t', e);
      FilteredSnoc(f, t', e);
    }
  }

  /** Every entry is either counted for the checker or marked "more follows":
      the status list has exactly one header per terminal entry. */
  lemma {:induction false} TerminalsCount(s: seq<Entry>)
    ensures |Terminals(s)| + CountMore(s) == |s|
    decreases |s|
  {
    if s != [] {
      TerminalsCount(s[..|s| - 1]);
    }
  }

  /** Number of non-terminal ("more follows") entries. */
  function CountMore(s: seq<Entry>): (n: nat)
    ensures n <= |s|
  {
    if s == [] then 0 else CountMore(s[..|s| - 1]) + (if s[|s| - 1].IsTerminal() then 0 else 1)
  }
}
