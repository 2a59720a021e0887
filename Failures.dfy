/** The exceptions the modelled code can raise, by cause. */
module Failures {

  /** One part of a length-window error, in the order the error lists them. */
  datatype Violation =
    | MinTooSmall(requested: int, allowed: int)   // the requested minimum lies below the allowed one
    | MaxTooLarge(requested: int, allowed: int)   // the requested maximum lies above the allowed one

  datatype Failure =
    | IllegalArgument                             // a Length was built from an invalid pair
    | NullAutomaton                               // no automaton has been set and it is dereferenced
    | NotInitialized                              // the handler was asked for lengths before any pattern was set
    | InfiniteAutomaton                           // the automaton accepts words of unbounded length
    | LengthOutOfBounds(violations: seq<Violation>)
    | MalformedPattern                            // the regular-expression compiler rejected the pattern
}
