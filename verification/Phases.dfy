/** The session states that client and server both go through, in order. */
module Phases {
  datatype Phase = StHello | StAuth | StEstablished | StClosing {
    function Rank(): nat {
      match this
      case StHello => 1
      case StAuth => 2
      case StEstablished => 3
      case StClosing => 4
    }
  }
}
