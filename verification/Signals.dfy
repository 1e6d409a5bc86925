/** What strategies and signals ask for. */
module Signals {
  datatype Action = BUY | SELL | HOLD
}
