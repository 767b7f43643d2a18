/** The Endpoint as the client manager sees it. Its class is not part of this model; what
    is kept is the registry that `handleProtocol` fills, whether the connection is still
    usable, and how often `close()` was called. */
module Endpoints {

  /** The result of `endpoint.handleProtocol(protocol)`: success, or the exception it throws. */
  datatype HandleResult = Handled | ProtocolAlreadyRunning | EndpointUnavailable

  class Endpoint {
    /** The other endpoint's id, as agreed in the session handshake. */
    const otherId: string
    /** False once the connection is closed or lost. */
    var available: bool
    /** Names of the protocols registered with `handleProtocol`, in registration order. */
    var protocols: seq<string>
    var closeCalls: nat

    constructor (otherId: string)
      ensures this.otherId == otherId && available && protocols == [] && closeCalls == 0
    {
      this.otherId := otherId;
      available, protocols, closeCalls := true, [], 0;
    }

    /** Registers a protocol under its name; a second protocol of the same name is refused,
        and so is any protocol once the endpoint is unavailable. */
    method HandleProtocol(name: string) returns (r: HandleResult)
      modifies this
      ensures r == (if !old(available) then EndpointUnavailable
                    else if name in old(protocols) then ProtocolAlreadyRunning
                    else Handled)
      ensures protocols == if r == Handled then old(protocols) + [name] else old(protocols)
      ensures available == old(available) && closeCalls == old(closeCalls)
    {
      if !available {
        r := EndpointUnavailable;
      } else if name in protocols {
        r := ProtocolAlreadyRunning;
      } else {
        protocols := protocols + [name];
        r := Handled;
      }
    }

    /** Closing is final; every call is counted. */
    method Close()
      modifies this
      ensures !available && closeCalls == old(closeCalls) + 1 && protocols == old(protocols)
    {
      available := false;
      closeCalls := closeCalls + 1;
    }
  }
}
