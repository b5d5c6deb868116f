/** The decoded statistics payload of an ArangoDB server and the metric values
    derived from it (plugins/inputs/arangodb/arangodb.go, lines 28-66). */
module ArangoTypes {

  /** Go's uint32. */
  newtype uint32 = x: int | 0 <= x < 0x1_0000_0000

  /** Go's uint64. */
  newtype uint64 = x: int | 0 <= x < 0x1_0000_0000_0000_0000

  /** Go's float32, kept as its bit pattern: the plugin only copies these
      values, it never computes with them. */
  datatype Float32 = Float32(bits: bv32)

  /** The dynamic type and value stored in a field map of type
      map[string]interface{}. */
  datatype FieldValue = U32(u32: uint32) | U64(u64: uint64) | F32(f32: Float32)

  /** LoginRequest: the body posted to the login endpoint. */
  datatype LoginRequest = LoginRequest(username: string, password: string)

  /** LoginResponse: the decoded reply of the login endpoint. */
  datatype LoginResponse = LoginResponse(jwt: string)

  /** ArangoSystem. */
  datatype ArangoSystem = ArangoSystem(
    majorPageFaults: uint32,
    minorPageFaults: uint32,
    numberOfThreads: uint32,
    residentSize: Float32,
    systemTime: Float32,
    userTime: Float32,
    virtualSize: uint64)

  /** ArangoRequestTime: `count` is decoded from the JSON key "requestTime";
      `counts` is the histogram, of whatever length the server sent (empty when
      the key is absent). */
  datatype ArangoRequestTime = ArangoRequestTime(
    count: uint32,
    counts: seq<uint32>,
    sum: Float32)

  /** ArangoClient. */
  datatype ArangoClient = ArangoClient(requestTime: ArangoRequestTime)

  /** ArangoServer. */
  datatype ArangoServer = ArangoServer(physicalMemory: uint64, uptime: Float32)

  /** ArangoStats: the whole statistics payload. */
  datatype ArangoStats = ArangoStats(
    client: ArangoClient,
    server: ArangoServer,
    system: ArangoSystem)

  /** A runtime panic of the Go program. */
  datatype Panic =
    | IndexOutOfRange(index: nat, length: nat)  // slice index past the end
    | NilStatsRequest                           // http.NewRequest failed, its nil result was used
    | NilStatsResponse                          // client.Do failed, its nil result was used
}
