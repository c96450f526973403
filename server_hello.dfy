/**
 The Hello context of the server: the `Console` process manager, which prints each line
 prefixed with the user's name in brackets, and the context that routes every `Print`
 command to the `Console` whose identity is the command's username.
 */
module ServerHello {
  import opened Hello

  /**
   The line the console writes for `text` printed by `username`: the name in brackets,
   one space, then the text.
   */
  function FormatLine(username: string, text: string): (r: string)
    ensures |r| == |username| + |text| + 3
    ensures r[0] == '[' && r[|username| + 1] == ']' && r[|username| + 2] == ' '
    ensures r[1..|username| + 1] == username
    ensures r[|username| + 3..] == text
  {
    "[" + username + "] " + text
  }

  /**
   A written line determines the user and the text, as long as user names hold no `]`.
   */
  lemma FormatLineInjective(u1: string, t1: string, u2: string, t2: string)
    requires ']' !in u1 && ']' !in u2
    requires FormatLine(u1, t1) == FormatLine(u2, t2)
    ensures u1 == u2 && t1 == t2
  {
  }

  /** Without that restriction two different prints can write the same line. */
  lemma FormatLineAmbiguous()
    ensures FormatLine("a] b", "c") == FormatLine("a", "b] c")
  {
  }

  /** The `Console` process manager with identity `id`. */
  class Console {
    const id: string
    var username: string
    var lines: seq<string>

    /** A process created on the first command for `id`: every state field at its default. */
    constructor (id: string)
      ensures this.id == id
      ensures State() == Initial()
    {
      this.id := id;
      username := "";
      lines := [];
    }

    /** The process state. */
    function State(): Output
      reads this
    {
      Output(username, lines)
    }

    /**
     Handles a `Print` command: sets the username, appends the text to the lines, writes
     `[username] text` to the console and emits `Printed`.
     */
    method Handle(command: Print, out: SystemOut) returns (event: Printed)
      modifies this, out
      ensures event == Printed(command.username, command.text)
      ensures State() == Transition(old(State()), command).0
      ensures event == Transition(old(State()), command).1
      ensures username == command.username
      ensures lines == old(lines) + [command.text]
      ensures out.written == old(out.written) + [FormatLine(command.username, command.text)]
    {
      var name := command.username;
      var text := command.text;
      username := name;
      lines := lines + [text];
      Println(name, text, out);
      event := Printed(name, command.text);
    }

    /** Writes `[userName] text` to the console. */
    method Println(userName: string, text: string, out: SystemOut)
      modifies out
      ensures out.written == old(out.written) + [FormatLine(userName, text)]
    {
      var output := "[" + userName + "] " + text;
      out.Println(output);
    }
  }

  /**
   The state of every identity after `cmd`: the process named by the command's username,
   created from the default state if it did not exist, takes the transition; all other
   processes are untouched.
   */
  function Deliver(m: map<string, Output>, cmd: Print): map<string, Output>
  {
    m[cmd.username := Transition(StateOf(m, cmd.username), cmd).0]
  }

  /** The state of identity `id`, or the default state if it has none yet. */
  function StateOf(m: map<string, Output>, id: string): Output
  {
    if id in m then m[id] else Initial()
  }

  /** The states after delivering `cmds` one after another, starting from `m`. */
  function DeliverAll(m: map<string, Output>, cmds: seq<Print>): map<string, Output>
    decreases cmds
  {
    if cmds == [] then m else DeliverAll(Deliver(m, cmds[0]), cmds[1..])
  }

  /** The texts of those of `cmds` that are for `id`, in order. */
  function TextsFor(id: string, cmds: seq<Print>): seq<string>
  {
    if cmds == [] then []
    else (if cmds[0].username == id then [cmds[0].text] else []) + TextsFor(id, cmds[1..])
  }

  /** When every command is for `id`, the texts for `id` are all the texts of the series. */
  lemma TextsForOneIdentity(id: string, cmds: seq<Print>)
    requires forall i :: 0 <= i < |cmds| ==> cmds[i].username == id
    ensures TextsFor(id, cmds) == Texts(cmds)
  {
  }

  /** True when some command of `cmds` is for `id`. */
  predicate Mentions(cmds: seq<Print>, id: string)
  {
    exists i :: 0 <= i < |cmds| && cmds[i].username == id
  }

  /**
   Each identity sees exactly its own commands: whatever other users do, the lines of `id`
   gain the texts of the commands for `id`, in order; a process exists for `id` exactly
   when it existed before or some command was for `id`, and then its username is `id`.
   */
  lemma {:induction false} DeliverAllPerIdentity(m: map<string, Output>, cmds: seq<Print>, id: string)
    requires id in m ==> m[id].username == id
    ensures StateOf(DeliverAll(m, cmds), id).lines == StateOf(m, id).lines + TextsFor(id, cmds)
    ensures id in DeliverAll(m, cmds) <==> id in m || Mentions(cmds, id)
    ensures id in DeliverAll(m, cmds) ==> DeliverAll(m, cmds)[id].username == id
    decreases cmds
  {
    if cmds != [] {
      var c := cmds[0];
      var m' := Deliver(m, c);
      assert StateOf(m', id).lines
          == StateOf(m, id).lines + (if c.username == id then [c.text] else []);
      DeliverAllPerIdentity(m', cmds[1..], id);
      assert StateOf(m, id).lines + TextsFor(id, cmds)
          == StateOf(m, id).lines + (if c.username == id then [c.text] else []) + TextsFor(id, cmds[1..]);
      if Mentions(cmds[1..], id) {
        var i :| 0 <= i < |cmds[1..]| && cmds[1..][i].username == id;
        assert cmds[i + 1].username == id;
      }
      if Mentions(cmds, id) && c.username != id {
        var i :| 0 <= i < |cmds| && cmds[i].username == id;
        assert cmds[1..][i - 1].username == id;
      }
    }
  }

  /**
   The Hello context: one `Console` per identity, created on the first command for it.
   A `Print` command reaches the `Console` whose identity is the command's username.
   */
  class HelloContext {
    var consoles: map<string, Console>

    /** Every process is registered under its own identity. */
    ghost predicate Valid()
      reads this, consoles.Values
    {
      forall id :: id in consoles ==> consoles[id].id == id
    }

    constructor ()
      ensures Valid()
      ensures consoles == map[]
    {
      consoles := map[];
    }

    /** The state of every process, by identity. */
    function States(): map<string, Output>
      reads this, consoles.Values
    {
      map id | id in consoles :: consoles[id].State()
    }

    /** Receives a `Print` command and hands it to the `Console` of its username. */
    method ReceiveCommand(command: Print, out: SystemOut) returns (event: Printed)
      requires Valid()
      modifies this, consoles.Values, out
      ensures Valid()
      ensures fresh(consoles.Values - old(consoles.Values))
      ensures States() == Deliver(old(States()), command)
      ensures event == Printed(command.username, command.text)
      ensures out.written == old(out.written) + [FormatLine(command.username, command.text)]
    {
      var console: Console;
      if command.username in consoles {
        console := consoles[command.username];
      } else {
        console := new Console(command.username);
        consoles := consoles[command.username := console];
      }
      ghost var before := old(States());
      assert StateOf(before, command.username) == console.State();
      event := console.Handle(command, out);
      assert forall id :: id in consoles && id != command.username ==> consoles[id] != console;
    }
  }

  /**
   Mirrors the context test: a `Print` posted to a fresh context emits `Printed` with the
   command's fields, and the state stored under the command's username is exactly the user
   and the one text.
   */
  method PrintOnFreshContext(command: Print, out: SystemOut) returns (event: Printed, state: Output)
    modifies out
    ensures event == Printed(command.username, command.text)
    ensures state == Output(command.username, [command.text])
    ensures out.written == old(out.written) + [FormatLine(command.username, command.text)]
  {
    var context := new HelloContext();
    event := context.ReceiveCommand(command, out);
    state := context.consoles[command.username].State();
  }

  /**
   Commands for two users, interleaved on one context: `a` and `b` for one user with `c`
   for another between them. Each user's state holds only that user's texts, in order.
   */
  method PrintInterleaved(a: Print, c: Print, b: Print, out: SystemOut) returns (states: map<string, Output>)
    requires a.username == b.username && a.username != c.username
    modifies out
    ensures states.Keys == {a.username, c.username}
    ensures states[a.username] == Output(a.username, [a.text, b.text])
    ensures states[c.username] == Output(c.username, [c.text])
    ensures out.written == old(out.written)
      + [FormatLine(a.username, a.text), FormatLine(c.username, c.text), FormatLine(b.username, b.text)]
    ensures states == Deliver(Deliver(Deliver(map[], a), c), b)
  {
    ghost var w0 := out.written;
    var context := new HelloContext();
    var _ := context.ReceiveCommand(a, out);
    ghost var w1 := out.written;
    var _ := context.ReceiveCommand(c, out);
    ghost var w2 := out.written;
    var _ := context.ReceiveCommand(b, out);
    states := context.States();
    DeliverInterleaved(a, c, b);
    assert out.written == w2 + [FormatLine(b.username, b.text)];
    assert w2 == w1 + [FormatLine(c.username, c.text)];
    assert w1 == w0 + [FormatLine(a.username, a.text)];
  }

  /** The value-level counterpart of `PrintInterleaved`. */
  lemma DeliverInterleaved(a: Print, c: Print, b: Print)
    requires a.username == b.username && a.username != c.username
    ensures Deliver(Deliver(Deliver(map[], a), c), b)
         == map[a.username := Output(a.username, [a.text, b.text]),
                c.username := Output(c.username, [c.text])]
  {
    assert [a.text] + [b.text] == [a.text, b.text];
  }

  /** Two `Print`s `a` then `b` for one user leave that user's lines `[a.text, b.text]`. */
  method PrintTwice(a: Print, b: Print) returns (lines: seq<string>)
    requires a.username == b.username
    ensures lines == [a.text, b.text]
  {
    var console := new Console(a.username);
    var out := new SystemOut();
    var _ := console.Handle(a, out);
    var _ := console.Handle(b, out);
    lines := console.lines;
  }
}
