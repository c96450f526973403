# Hello: Console process managers and the greeting aggregate

This project models the business logic of the Spine "hello world" example. That logic is three
small command handlers inside a bounded context:

- **`Console`** (`server/hello/Console.java`) is a process manager with one instance per user.
  Its state is `Output { username, lines }`. On a `Print(username, text)` command it sets
  `username`, appends `text` to `lines`, writes `[username] text` to standard output and
  emits `Printed(username, text)`.
- **The older `Console`** (`io/spine/helloworld/Console.java`) does the same, except that it
  writes the bare `text`.
- **`GreetingAggregate`** is an event-sourced aggregate. `handle(GreetWorld)` builds a
  `WorldGreeted` event for the command's user. The `@Apply` method copies that event's
  username into the aggregate state.

Layout:

- `hello.dfy` (module `Hello`) holds what both consoles share:
  - the `Print`, `Printed` and `Output` messages;
  - the pure state transition `Transition` and its fold over a series of commands, `Replay`;
  - `SystemOut`, standard output modelled as a ghost trace of written lines. Every console
    writes to this one shared object.
- `server_hello.dfy` (module `ServerHello`) holds:
  - the newer `Console` class, with `Handle` proved against `Transition`;
  - the output line format `FormatLine`;
  - a `HelloContext` class that keeps one `Console` per identity and routes each `Print` to
    the console named by its username, as the context test assumes;
  - the value-level `Deliver`/`DeliverAll` that specify that routing.
- `legacy_hello.dfy` (module `LegacyHello`) holds the older `Console` class.
- `greeting.dfy` (module `Greeting`) holds the aggregate:
  - `Handle` is a static function, so it cannot read or change state;
  - `Apply` is a method that overwrites the state's username;
  - `Applied` is the value-level apply, and `Replay` folds it over an event history.

The source never shows the state of a newly created process, because the framework creates it.
The model assumes each new process starts with every field at its default: `Output("", [])` for a
console and `GreetingState("")` for the aggregate. For a console, the default username cannot be
observed after the first `Print`, because `handle` overwrites it
(src/main/java/io/spine/helloworld/server/hello/Console.java:55).

## Model

| member | source | states |
|---|---|---|
| Hello.Transition | src/main/java/io/spine/helloworld/server/hello/Console.java:53-61 | The new state has the command's username. Its lines are the old lines unchanged, followed by exactly one more line, the command's text. The event carries the command's username and text. There is no rejection outcome. |
| Hello.ReplayAppends | src/main/java/io/spine/helloworld/server/hello/Console.java:55-56 | After any series of `Print`s, the lines are the earlier lines followed by the commands' texts in arrival order, and the username is that of the last command. |
| Hello.FirstPrint | src/test/java/io/spine/helloworld/server/hello/HelloContextTest.java:66-73 | One `Print` on a fresh process gives exactly `Output(cmd.username, [cmd.text])`. |
| Hello.TwoPrints | src/main/java/io/spine/helloworld/server/hello/Console.java:56 | Two `Print`s `a` then `b` for one user, starting fresh, give lines `[a.text, b.text]`. |
| Hello.SystemOut.Println | src/main/java/io/spine/helloworld/server/hello/Console.java:70 | Standard output gains exactly the one line written, at the end. |
| ServerHello.FormatLine | src/main/java/io/spine/helloworld/server/hello/Console.java:69 | The line is `[`, then the username, then `] `, then the text. Its length is the two lengths plus 3. |
| ServerHello.FormatLineInjective | src/main/java/io/spine/helloworld/server/hello/Console.java:69 | If neither username contains `]`, equal lines imply equal usernames and equal texts. |
| ServerHello.FormatLineAmbiguous | src/main/java/io/spine/helloworld/server/hello/Console.java:69 | Without that restriction, the prints `("a] b", "c")` and `("a", "b] c")` write the same line. |
| ServerHello.Console.constructor | src/main/java/io/spine/helloworld/server/hello/Console.java:39 | A console created for an identity has that id and the default state. |
| ServerHello.Console.Handle | src/main/java/io/spine/helloworld/server/hello/Console.java:51-62 | The state becomes `Transition(old state, cmd)`: username set, text appended. The returned event is `Printed(cmd.username, cmd.text)`. Standard output gains exactly `[username] text`. |
| ServerHello.Console.Println | src/main/java/io/spine/helloworld/server/hello/Console.java:67-71 | Standard output gains exactly `FormatLine(userName, text)`. |
| ServerHello.TextsForOneIdentity | src/main/java/io/spine/helloworld/server/hello/Console.java:56 | When every command is for one identity, that identity's texts are all the texts of the series. This ties the per-identity result to `Hello.ReplayAppends`. |
| ServerHello.DeliverAllPerIdentity | src/test/java/io/spine/helloworld/server/hello/HelloContextTest.java:66-73 | Under routing by username, for any series of commands from any users: an identity's lines gain exactly the texts of its own commands, in order. It has a state exactly when it had one before or some command named it, and that state's username is the identity. |
| ServerHello.HelloContext.constructor | src/main/java/io/spine/helloworld/server/hello/HelloContext.java:52-56 | A new context holds no consoles. |
| ServerHello.HelloContext.ReceiveCommand | src/main/java/io/spine/helloworld/server/hello/HelloContext.java:52-56 | The console for the command's username handles the command. If that console did not exist, it is newly allocated with the default state. All other consoles keep their state. The event and the written line are those of `Console.Handle`. Every console stays registered under its own id. |
| ServerHello.PrintOnFreshContext | src/test/java/io/spine/helloworld/server/hello/HelloContextTest.java:57-73 | Posting one `Print` to a fresh context emits `Printed(username, text)`. The state stored under the username is then exactly `Output(username, [text])`. Standard output gains exactly `[username] text`. |
| ServerHello.PrintInterleaved | src/main/java/io/spine/helloworld/server/hello/Console.java:51-62 | For `a` and `b` from one user interleaved with `c` from another on one context: there are exactly two states. The first user's state is `[a.text, b.text]` and the other's is `[c.text]`. The three formatted lines are written in posting order. |
| ServerHello.DeliverInterleaved | src/main/java/io/spine/helloworld/server/hello/Console.java:55-56 | At the value level, delivering `a`, `c`, `b` from an empty context gives exactly two states: `[a.text, b.text]` for the first user and `[c.text]` for the other. |
| ServerHello.PrintTwice | src/main/java/io/spine/helloworld/server/hello/Console.java:56 | A console that handles `a` then `b` holds lines `[a.text, b.text]`. |
| LegacyHello.Console.constructor | src/main/java/io/spine/helloworld/Console.java:13 | A console created for an identity has that id and the default state. |
| LegacyHello.Console.Handle | src/main/java/io/spine/helloworld/Console.java:25-37 | The state becomes `Transition(old state, cmd)`. The returned event is `Printed(cmd.username, cmd.text)`. Standard output gains exactly the bare `cmd.text`. |
| LegacyHello.Console.Println | src/main/java/io/spine/helloworld/Console.java:42-45 | Standard output gains exactly the text. |
| LegacyHello.PrintOnFreshConsole | src/main/java/io/spine/helloworld/Console.java:25-37 | A fresh console that handles one `Print` emits `Printed(username, text)` and holds exactly `Output(username, [text])`. Standard output gains exactly `text`. |
| Greeting.Applied | src/main/java/io/spine/helloworld/GreetingAggregate.java:53-56 | Applying `WorldGreeted` gives a state whose username is the event's. |
| Greeting.GreetingAggregate.constructor | src/main/java/io/spine/helloworld/GreetingAggregate.java:34-36 | An aggregate created for an id has that id and the default state. |
| Greeting.GreetingAggregate.Handle | src/main/java/io/spine/helloworld/GreetingAggregate.java:44-50 | The event's username is the command's username. As a function it cannot touch aggregate state. |
| Greeting.GreetingAggregate.Apply | src/main/java/io/spine/helloworld/GreetingAggregate.java:53-56 | The state becomes `Applied(old state, e)`, so its username is `e.username`. Only the `state` field may change. |
| Greeting.ApplyIdempotent | src/main/java/io/spine/helloworld/GreetingAggregate.java:55 | Applying the same event twice gives the same state as applying it once. |
| Greeting.HandleThenApply | src/main/java/io/spine/helloworld/GreetingAggregate.java:44-56 | Applying the event from `handle(cmd)` leaves username `cmd.username`, whatever the prior state. |
| Greeting.ReplayConcat | src/main/java/io/spine/helloworld/GreetingAggregate.java:53-56 | Replaying a history in two parts equals replaying it at once, so the state is a projection of the event history. |
| Greeting.ReplayLast | src/main/java/io/spine/helloworld/GreetingAggregate.java:53-56 | After a non-empty history, the state names the user of the last event. |
| Greeting.HandleAndApply | src/main/java/io/spine/helloworld/GreetingAggregate.java:44-56 | Handling a command and applying its event returns `Handle(cmd)` and leaves the aggregate's username equal to the command's. |

## Left out

- Application bootstrapping and command posting are not modelled. This covers `HelloWorldApp.java`, `Application.java` and `Example.java`: stream-observer acknowledgements, system properties and the sleep-polling wait. It is process plumbing.
- `client/Client.java` is not modelled: it is a network client whose subscription state lives in the framework.
- `server/Server.java` is not modelled: it covers server lifecycle, asynchronous delivery and in-memory transport.
- `SimpleStorageFactory.java` is not modelled: it only delegates to the framework's in-memory storage.
- Both `HelloContext.java` files are framework builder configuration. All that is kept of them is that the context holds one `Console` per identity and that a `Print` reaches the `Console` named by its username. That routing is the framework's default, which the test relies on. `HelloContext` assumes it rather than verifying it.
- The framework's own behaviour is not modelled. Command-bus routing by type, the event bus and its subscribers, storage, transactions and concurrency all live in code that is not part of this model.
- Rejection, `NoHandlerError` and subscriber failures come from the framework's general design. None of the modelled handlers rejects anything, so the model has no error path.
- Real printing is modelled as an append to the ghost trace `SystemOut.written`. The source prints inside the handler rather than in a separate subscriber, and the model follows the code.
- Message validation is not modelled, in either form. The newer console builds through `vBuild()`. The older one uses the validating builders: `OutputVBuilder` for its state and `Printed.vBuilder()…build()` for its event (src/main/java/io/spine/helloworld/Console.java:13, 32-36). Validation is driven by the message definitions, which are not part of this model, so every message is treated as valid.
- Greeting.GreetingAggregate.Apply: the state holds only `username`. The `Greeting` message definition is not part of this model, so "no other field changes" is shown only for the aggregate's other field, its `id` (a constant).
