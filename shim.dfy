/**
 * What the chaincodes see of the Fabric stub besides the world state itself:
 * whether `GetState` and `PutState` return an error on this call. Both are
 * decided by the peer, outside the chaincode, so every operation takes them
 * as a parameter. A failing `PutState` writes nothing.
 */
module Shim {

  datatype Faults = Faults(getFails: bool, putFails: bool)

  /** A call on which the stub answers every request. */
  const NO_FAULTS := Faults(false, false)
}
