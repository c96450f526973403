/**
 The `GreetingAggregate` of the hello example, an event-sourced aggregate: its command
 handler turns `GreetWorld` into the fact `WorldGreeted`, and its event applier records
 that fact in the aggregate state.
 */
module Greeting {

  /** The command: `username` greets the world. */
  datatype GreetWorld = GreetWorld(username: string)

  /** The event: `username` has greeted the world. */
  datatype WorldGreeted = WorldGreeted(username: string)

  /** The aggregate state. */
  datatype GreetingState = GreetingState(username: string)

  /** The state after `e` is applied to `s`. */
  function Applied(s: GreetingState, e: WorldGreeted): (r: GreetingState)
    ensures r.username == e.username
  {
    s.(username := e.username)
  }

  /** The state after the events `es` are applied in order, starting from `s`. */
  function Replay(s: GreetingState, es: seq<WorldGreeted>): GreetingState
    decreases es
  {
    if es == [] then s else Replay(Applied(s, es[0]), es[1..])
  }

  /** The aggregate with identity `id`. */
  class GreetingAggregate {
    const id: string
    var state: GreetingState

    constructor (id: string)
      ensures this.id == id
      ensures state == GreetingState("")
    {
      this.id := id;
      state := GreetingState("");
    }

    /**
     Handles `GreetWorld`: the event names the user of the command. A function, so it
     can neither read nor change the aggregate.
     */
    static function Handle(command: GreetWorld): (event: WorldGreeted)
      ensures event.username == command.username
    {
      WorldGreeted(command.username)
    }

    /** Applies `e`: the state's username becomes the event's. */
    method Apply(e: WorldGreeted)
      modifies this`state
      ensures state == Applied(old(state), e)
      ensures state.username == e.username
    {
      state := state.(username := e.username);
    }
  }

  /** Applying an event a second time changes nothing: applying is an overwrite. */
  lemma ApplyIdempotent(s: GreetingState, e: WorldGreeted)
    ensures Applied(Applied(s, e), e) == Applied(s, e)
  {
  }

  /** Handling a command and applying its event records the command's user, whatever the prior state. */
  lemma HandleThenApply(s: GreetingState, command: GreetWorld)
    ensures Applied(s, GreetingAggregate.Handle(command)).username == command.username
  {
  }

  /** Replaying a history in two parts gives the same state as replaying it at once. */
  lemma {:induction false} ReplayConcat(s: GreetingState, es1: seq<WorldGreeted>, es2: seq<WorldGreeted>)
    ensures Replay(s, es1 + es2) == Replay(Replay(s, es1), es2)
    decreases es1
  {
    if es1 == [] {
      assert es1 + es2 == es2;
    } else {
      assert (es1 + es2)[1..] == es1[1..] + es2;
      ReplayConcat(Applied(s, es1[0]), es1[1..], es2);
    }
  }

  /** After a non-empty history the state names the user of its last event. */
  lemma {:induction false} ReplayLast(s: GreetingState, es: seq<WorldGreeted>)
    requires es != []
    ensures Replay(s, es).username == es[|es| - 1].username
    decreases es
  {
    if |es| > 1 {
      ReplayLast(Applied(s, es[0]), es[1..]);
      assert es[1..][|es[1..]| - 1] == es[|es| - 1];
    }
  }

  /**
   A command reaching the aggregate: it is handled, and the event it produces is applied,
   so afterwards the state names the command's user.
   */
  method HandleAndApply(a: GreetingAggregate, command: GreetWorld) returns (event: WorldGreeted)
    modifies a`state
    ensures event == GreetingAggregate.Handle(command)
    ensures a.state == Applied(old(a.state), event)
    ensures a.state.username == command.username
  {
    event := GreetingAggregate.Handle(command);
    a.Apply(event);
    HandleThenApply(old(a.state), command);
  }
}
