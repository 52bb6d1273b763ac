/** SQL statements as their clients see them. */
module Statements {

  /** A statement runs, or fails without effect, or takes effect although its client is told that it failed. */
  datatype Fault = NoFault | Lost | Ambiguous
}
