/**
 * The console's command table: registration in insertion order,
 * dispatch of a typed line (exact match on the first word, then the
 * first registered command that is a prefix of the line), tab
 * completion, and the help listing. Handlers are values of the type
 * parameter `H`; running them is the caller's business.
 */
module CommandInterface {
  import opened Wrappers
  import opened Text

  datatype Entry<H> = Entry(handler: H, help: string)

  predicate Distinct(names: seq<string>) {
    forall i, j :: 0 <= i < j < |names| ==> names[i] != names[j]
  }

  /** Index of the first name that is a prefix of `s`, or `|names|` when none is. */
  function FirstPrefix(names: seq<string>, s: string): (i: nat)
    ensures i <= |names|
    ensures i < |names| ==> names[i] <= s
    ensures forall j :: 0 <= j < i ==> !(names[j] <= s)
  {
    if names == [] then 0
    else if names[0] <= s then 0
    else 1 + FirstPrefix(names[1..], s)
  }

  /** None of the first `i` names is a prefix of `s`. */
  predicate NoPrefixBefore(names: seq<string>, s: string, i: nat)
    requires i <= |names|
  {
    forall j :: 0 <= j < i ==> !(names[j] <= s)
  }

  lemma NoPrefixStep(names: seq<string>, s: string, i: nat)
    requires i < |names| && NoPrefixBefore(names, s, i) && !(names[i] <= s)
    ensures NoPrefixBefore(names, s, i + 1)
  {
  }

  /** The first name that is a prefix of `s` is the one at `i` when none before `i` is and that one is (or `i` is the end). */
  lemma {:induction false} FirstPrefixAt(names: seq<string>, s: string, i: nat)
    requires i <= |names| && (i < |names| ==> names[i] <= s)
    requires forall j :: 0 <= j < i ==> !(names[j] <= s)
    ensures FirstPrefix(names, s) == i
  {
    if i > 0 {
      assert !(names[0] <= s);
      FirstPrefixAt(names[1..], s, i - 1);
    }
  }

  /**
   * The command `process_command` runs for `line`, or `None` when it runs
   * none: a blank line, or a line neither of whose lookups succeeds.
   */
  function Dispatch<H>(names: seq<string>, commands: map<string, Entry<H>>, line: string): (r: Option<string>)
    ensures r.Some? ==> r.value in commands || r.value in names
  {
    var parts := Tokens(Strip(line));
    if parts == [] then None
    else if Lower(parts[0]) in commands then Some(Lower(parts[0]))
    else
      var i := FirstPrefix(names, Lower(line));
      if i < |names| then Some(names[i]) else None
  }

  /** An empty or whitespace-only line runs no command. */
  lemma DispatchBlank<H>(names: seq<string>, commands: map<string, Entry<H>>, line: string)
    requires AllSpace(line)
    ensures Dispatch(names, commands, line) == None
  {
    StripEmptyIff(line);
  }

  /** What is dispatched is always a registered command. */
  lemma DispatchRegistered<H>(names: seq<string>, commands: map<string, Entry<H>>, line: string)
    requires forall k :: k in names ==> k in commands
    ensures Dispatch(names, commands, line).Some? ==> Dispatch(names, commands, line).value in commands
  {
  }

  /**
   * When the first word is not a command name, the command run is the
   * earliest registered one that the lower-cased line starts with, and
   * nothing runs when no registered name is such a prefix.
   */
  lemma DispatchByPrefix<H>(names: seq<string>, commands: map<string, Entry<H>>, line: string)
    requires Tokens(Strip(line)) != [] && Lower(Tokens(Strip(line))[0]) !in commands
    ensures Dispatch(names, commands, line).None? <==> forall j :: 0 <= j < |names| ==> !(names[j] <= Lower(line))
    ensures forall i :: 0 <= i < |names| && Dispatch(names, commands, line) == Some(names[i]) && Distinct(names) ==>
      names[i] <= Lower(line) && forall j :: 0 <= j < i ==> !(names[j] <= Lower(line))
  {
    var k := FirstPrefix(names, Lower(line));
    assert Dispatch(names, commands, line) == if k < |names| then Some(names[k]) else None;
    forall i | 0 <= i < |names| && Dispatch(names, commands, line) == Some(names[i]) && Distinct(names)
      ensures names[i] <= Lower(line) && forall j :: 0 <= j < i ==> !(names[j] <= Lower(line))
    {
      assert k < |names| && names[k] == names[i];
    }
  }

  /** The completion options for `text`: the registered names it starts, in registration order. */
  function Matching(names: seq<string>, text: string): (r: seq<string>)
    ensures |r| <= |names|
    ensures forall x :: x in r <==> x in names && text <= x
  {
    if names == [] then []
    else (if text <= names[0] then [names[0]] else []) + Matching(names[1..], text)
  }

  /** The completer: the `state`-th option, or `None` past the last one. */
  function Complete(names: seq<string>, text: string, state: nat): (r: Option<string>)
    ensures r.Some? <==> state < |Matching(names, text)|
    ensures r.Some? ==> r.value in names && text <= r.value
  {
    var options := Matching(names, text);
    if state < |options| then Some(options[state]) else None
  }

  lemma {:induction false} MatchingAppend(a: seq<string>, b: seq<string>, text: string)
    ensures Matching(a + b, text) == Matching(a, text) + Matching(b, text)
  {
    if a == [] {
      assert a + b == b;
    } else {
      assert (a + b)[0] == a[0] && (a + b)[1..] == a[1..] + b;
      MatchingAppend(a[1..], b, text);
    }
  }

  /** When `text` starts none of the names, nothing is offered. */
  lemma {:induction false} MatchingNone(names: seq<string>, text: string)
    requires forall i :: 0 <= i < |names| ==> !(text <= names[i])
    ensures Matching(names, text) == []
  {
    if names != [] {
      MatchingNone(names[1..], text);
    }
  }

  /** When `text` starts every name, all of them are offered, in order. */
  lemma {:induction false} MatchingAll(names: seq<string>, text: string)
    requires forall i :: 0 <= i < |names| ==> text <= names[i]
    ensures Matching(names, text) == names
  {
    if names != [] {
      MatchingAll(names[1..], text);
      assert names == [names[0]] + names[1..];
    }
  }

  /** Names around a block that `text` starts none of add no options to the block's. */
  lemma MatchingAround(head: seq<string>, mid: seq<string>, tail: seq<string>, text: string)
    requires Matching(head, text) == [] && Matching(tail, text) == []
    ensures Matching(head + mid + tail, text) == Matching(mid, text)
  {
    MatchingAppend(head + mid, tail, text);
    MatchingAppend(head, mid, text);
  }

  /** A name that `text` starts is offered right after the matching names registered before it. */
  lemma CompleteInOrder(names: seq<string>, text: string, i: nat)
    requires i < |names| && text <= names[i]
    ensures Complete(names, text, |Matching(names[..i], text)|) == Some(names[i])
  {
    assert names == names[..i] + names[i..];
    MatchingAppend(names[..i], names[i..], text);
  }

  function HelpLine(name: string, help: string): string {
    " - " + name + ": " + help
  }

  class CommandInterface<H> {
    /** The registered names in insertion order (the dictionary's key order). */
    var names: seq<string>
    var commands: map<string, Entry<H>>

    ghost predicate Valid()
      reads this
    {
      Distinct(names) && forall k :: k in commands <==> k in names
    }

    constructor ()
      ensures Valid() && names == [] && commands == map[]
    {
      names := [];
      commands := map[];
    }

    /** `register_command`: a new name goes last; an existing one keeps its place and gets the new handler and help. */
    method RegisterCommand(command: string, handler: H, help: string := "")
      requires Valid()
      modifies this
      ensures Valid()
      ensures commands == old(commands)[command := Entry(handler, help)]
      ensures names == if command in old(commands) then old(names) else old(names) + [command]
    {
      if command !in commands {
        names := names + [command];
      }
      commands := commands[command := Entry(handler, help)];
    }

    /** The lookup half of `process_command`: which registered command the line runs. */
    method FindCommand(line: string) returns (name: Option<string>)
      requires Valid()
      ensures name == Dispatch(names, commands, line)
      ensures name.Some? ==> name.value in commands
    {
      var parts := Tokens(Strip(line));
      if parts == [] {
        return None;
      }
      var cmd := Lower(parts[0]);
      if cmd in commands {
        return Some(cmd);
      }
      var lowered := Lower(line);
      var i := 0;
      while i < |names|
        invariant 0 <= i <= |names|
        invariant NoPrefixBefore(names, lowered, i)
      {
        if names[i] <= lowered {
          FirstPrefixAt(names, lowered, i);
          return Some(names[i]);
        }
        NoPrefixStep(names, lowered, i);
        i := i + 1;
      }
      FirstPrefixAt(names, lowered, |names|);
      return None;
    }

    /** `show_help`: one line per registered command, in registration order; the console goes on. */
    method ShowHelp() returns (lines: seq<string>, cont: bool)
      requires Valid()
      ensures cont
      ensures |lines| == |names|
      ensures forall i :: 0 <= i < |names| ==> lines[i] == HelpLine(names[i], commands[names[i]].help)
    {
      lines := [];
      var i := 0;
      while i < |names|
        invariant 0 <= i <= |names|
        invariant |lines| == i
        invariant forall j :: 0 <= j < i ==> lines[j] == HelpLine(names[j], commands[names[j]].help)
      {
        lines := lines + [HelpLine(names[i], commands[names[i]].help)];
        i := i + 1;
      }
      cont := true;
    }
  }
}
