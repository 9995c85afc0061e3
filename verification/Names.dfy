/** The identifiers and limits the modules share. */
module Names {

  type JobId = string
  type Key = string
  type NodeId = string
  type ConnId = nat     // one per HandleWS call: the identity of its NodeConn

  const MAX_CONCURRENT_PER_USER := 3
  const RESPONSE_BUFFER := 64
}
