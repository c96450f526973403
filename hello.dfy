/**
 The messages and the process state shared by both `Console` process managers of the
 Hello context, the pure state transition that a `Print` command causes, and the
 console (standard output) as a ghost trace of written lines.
 */
module Hello {

  /** The command: print `text` on behalf of `username`. */
  datatype Print = Print(username: string, text: string)

  /** The event emitted once a `Print` command has been handled. */
  datatype Printed = Printed(username: string, text: string)

  /** The state of one `Console` process: the user and every line printed so far. */
  datatype Output = Output(username: string, lines: seq<string>)

  /** The state a process starts from: the default value of every field. */
  function Initial(): Output
  {
    Output("", [])
  }

  /**
   The effect of handling `cmd` on the process state `s`: the new state and the emitted
   event. Handling never rejects a command.
   */
  function Transition(s: Output, cmd: Print): (r: (Output, Printed))
    ensures r.0.username == cmd.username
    ensures |r.0.lines| == |s.lines| + 1
    ensures r.0.lines[..|s.lines|] == s.lines
    ensures r.0.lines[|s.lines|] == cmd.text
    ensures r.1.username == cmd.username && r.1.text == cmd.text
  {
    (Output(cmd.username, s.lines + [cmd.text]), Printed(cmd.username, cmd.text))
  }

  /** The state after handling `cmds` one after another, starting from `s`. */
  function Replay(s: Output, cmds: seq<Print>): Output
    decreases cmds
  {
    if cmds == [] then s else Replay(Transition(s, cmds[0]).0, cmds[1..])
  }

  /** The texts of `cmds`, in order. */
  function Texts(cmds: seq<Print>): seq<string>
  {
    if cmds == [] then [] else [cmds[0].text] + Texts(cmds[1..])
  }

  /**
   Handling a series of commands only ever appends: the earlier lines stay as they were,
   followed by the commands' texts in the order the commands arrived, and the username is
   that of the last command.
   */
  lemma {:induction false} ReplayAppends(s: Output, cmds: seq<Print>)
    ensures Replay(s, cmds).lines == s.lines + Texts(cmds)
    ensures cmds != [] ==> Replay(s, cmds).username == cmds[|cmds| - 1].username
    ensures cmds == [] ==> Replay(s, cmds) == s
    decreases cmds
  {
    if cmds != [] {
      var s' := Transition(s, cmds[0]).0;
      ReplayAppends(s', cmds[1..]);
      assert s'.lines == s.lines + [cmds[0].text];
      assert s.lines + Texts(cmds) == s.lines + [cmds[0].text] + Texts(cmds[1..]);
      if cmds[1..] != [] {
        assert cmds[1..][|cmds[1..]| - 1] == cmds[|cmds| - 1];
      }
    }
  }

  /** One `Print` on a fresh process yields exactly the user and that one line. */
  lemma FirstPrint(cmd: Print)
    ensures Replay(Initial(), [cmd]) == Output(cmd.username, [cmd.text])
  {
  }

  /** Two `Print`s `a` then `b` for one user leave the lines `[a.text, b.text]`, in order. */
  lemma {:induction false} TwoPrints(a: Print, b: Print)
    requires a.username == b.username
    ensures Replay(Initial(), [a, b]) == Output(a.username, [a.text, b.text])
  {
    ReplayAppends(Initial(), [a, b]);
    assert [a, b][1..] == [b] && [b][1..] == [];
    assert Texts([b]) == [b.text];
    assert Texts([a, b]) == [a.text] + Texts([b]);
  }

  /**
   The standard output that every `Console` writes to, as the sequence of lines written
   so far. It exists only for specification.
   */
  class SystemOut {
    ghost var written: seq<string>

    constructor ()
      ensures written == []
    {
      written := [];
    }

    /** Writes one line. */
    ghost method Println(line: string)
      modifies this
      ensures written == old(written) + [line]
    {
      written := written + [line];
    }
  }
}
