/** The states of a connection, which only move forward. */
module States {

  datatype State = Connecting | Connected | Disconnecting | Disconnected {
    function Rank(): nat {
      match this case Connecting => 0 case Connected => 1 case Disconnecting => 2 case Disconnected => 3
    }
  }
}
