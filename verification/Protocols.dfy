/** The protocol numbers of pkg/protocol/metadata.go and their classification. */
module Protocols {

  datatype Protocol =
    | CloseConnRequest
    | CloseConnResponse
    | OpenSessionRequest
    | OpenSessionResponse
    | CloseSessionRequest
    | CloseSessionResponse
    | DataClientToServer
    | DataServerToClient
    | AckClientToServer
    | AckServerToClient
    | DataClientToServerLowEntropy
    | DataServerToClientLowEntropy

  function Code(p: Protocol): (c: nat)
    ensures c < 12
  {
    match p
    case CloseConnRequest => 0
    case CloseConnResponse => 1
    case OpenSessionRequest => 2
    case OpenSessionResponse => 3
    case CloseSessionRequest => 4
    case CloseSessionResponse => 5
    case DataClientToServer => 6
    case DataServerToClient => 7
    case AckClientToServer => 8
    case AckServerToClient => 9
    case DataClientToServerLowEntropy => 10
    case DataServerToClientLowEntropy => 11
  }

  const ALL: seq<Protocol> := [
    CloseConnRequest, CloseConnResponse, OpenSessionRequest, OpenSessionResponse, CloseSessionRequest,
    CloseSessionResponse, DataClientToServer, DataServerToClient, AckClientToServer, AckServerToClient,
    DataClientToServerLowEntropy, DataServerToClientLowEntropy]

  lemma {:induction false} CodesAreIndexes(p: Protocol)
    ensures |ALL| == 12 && ALL[Code(p)] == p
  {}

  predicate IsSessionProtocol(p: Protocol) {
    p.OpenSessionRequest? || p.OpenSessionResponse? || p.CloseSessionRequest? || p.CloseSessionResponse?
  }

  predicate IsLowEntropyProtocol(p: Protocol) {
    p.DataClientToServerLowEntropy? || p.DataServerToClientLowEntropy?
  }

  predicate IsDataProtocol(p: Protocol) {
    p.DataClientToServer? || p.DataServerToClient? || IsLowEntropyProtocol(p)
  }

  predicate IsAckProtocol(p: Protocol) {
    p.AckClientToServer? || p.AckServerToClient?
  }

  predicate IsDataAckProtocol(p: Protocol) {
    IsDataProtocol(p) || IsAckProtocol(p)
  }
}
