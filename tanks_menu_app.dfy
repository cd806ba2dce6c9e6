/**
 * The tanks-menu application's loop as it runs: the `Interface` record whose `state`
 * is updated in place, and the `for(processing)` loop. Each method is proved against
 * the functions of TanksMenu.
 */
module TanksMenuApp {
  import opened Input
  import opened TanksMenu

  /** The heap-allocated interface record. */
  class Interface {
    var state: MenuState

    /** Allocation and initialisation on the single-player entry. */
    constructor ()
      ensures state == Init()
    {
      state := SingleMode;
    }

    /** One loop iteration; returns the new value of the loop flag. */
    method Step(received: Received<Event>) returns (processing: bool)
      modifies this
      ensures Outcome(state, processing) == Next(old(state), received)
    {
      processing := true;
      match received {
        case Timeout =>
        case Got(Key(input)) =>
          if input.kind == Press {
            match input.key {
              case Up =>
                ToggleEntry();
              case Down =>
                ToggleEntry();
              case Right =>
              case Left =>
              case Ok =>
                if state == SingleMode || state == CoopMode {
                  state := GameStarting;
                }
              case Back =>
                processing := false;
            }
          }
      }
    }

    /** The shared body of Up and Down; their fall-through into Right/Left only reaches `break`. */
    method ToggleEntry()
      modifies this
      ensures state == Toggle(old(state))
    {
      if state == SingleMode {
        state := CoopMode;
      } else if state == CoopMode {
        state := SingleMode;
      }
    }

    /**
     * The `for(processing)` loop over a finite script of received events: it ends when
     * Back clears the flag or the script is exhausted.
     */
    method Loop(script: seq<Received<Event>>) returns (stopped: bool)
      modifies this
      ensures Trace(state, stopped) == Run(old(state), script)
    {
      ghost var start := state;
      var processing := true;
      var i := 0;
      while processing && i < |script|
        invariant 0 <= i <= |script|
        invariant processing ==> Run(start, script) == Run(state, script[i..])
        invariant !processing ==> Run(start, script) == Trace(state, true)
      {
        assert script[i..][0] == script[i] && script[i..][1..] == script[i + 1..];
        processing := Step(script[i]);
        i := i + 1;
      }
      stopped := !processing;
    }
  }
}
