/**
 The earlier `Console` process manager of the hello example: the same state update and
 event as the server's, but it writes the bare text to the console.
 */
module LegacyHello {
  import opened Hello

  /** The `Console` process manager with identity `id`. */
  class Console {
    const id: string
    var username: string
    var lines: seq<string>

    /** A process created on the first command for `id`: every state field at its default. */
    constructor (id: string)
      ensures this.id == id
      ensures State() == Initial()
    {
      this.id := id;
      username := "";
      lines := [];
    }

    /** The process state. */
    function State(): Output
      reads this
    {
      Output(username, lines)
    }

    /**
     Handles a `Print` command: sets the username, appends the text to the lines, writes
     the text alone to the console and emits `Printed`.
     */
    method Handle(command: Print, out: SystemOut) returns (event: Printed)
      modifies this, out
      ensures event == Printed(command.username, command.text)
      ensures State() == Transition(old(State()), command).0
      ensures event == Transition(old(State()), command).1
      ensures username == command.username
      ensures lines == old(lines) + [command.text]
      ensures out.written == old(out.written) + [command.text]
    {
      var name := command.username;
      var text := command.text;
      username := name;
      lines := lines + [text];
      Println(text, out);
      event := Printed(name, command.text);
    }

    /** Writes `text` to the console. */
    static method Println(text: string, out: SystemOut)
      modifies out
      ensures out.written == old(out.written) + [text]
    {
      out.Println(text);
    }
  }

  /**
   A `Print` handled by a fresh process emits `Printed` with the command's fields, leaves
   exactly the user and the one text, and writes exactly that text.
   */
  method PrintOnFreshConsole(command: Print, out: SystemOut) returns (event: Printed, state: Output)
    modifies out
    ensures event == Printed(command.username, command.text)
    ensures state == Output(command.username, [command.text])
    ensures out.written == old(out.written) + [command.text]
  {
    var console := new Console(command.username);
    event := console.Handle(command, out);
    state := console.State();
  }
}
