/**
 The vocabulary shared by the SMC key-toggle model: fixed-width integers,
 the status codes of the kernel and of the controller, key schemas, and the
 request/response record exchanged with the controller on every round trip.

 Every numeric constant of the controller protocol whose value lives in a
 header this model does not have (the opcodes, kSMCSuccess, kSMCKeyNotFound,
 KERN_SUCCESS, KERN_FAILURE) is a datatype constructor: the model relies only
 on these constants being pairwise distinct.
 */
module SmcTypes {

  newtype byte = x: int | 0 <= x < 0x100
  newtype uint32 = x: int | 0 <= x < 0x1_0000_0000

  datatype Option<T> = None | Some(value: T)

  /** A kern_return_t as seen by this program. SmcKeyNotFound is the
      controller's key-not-found result code passed back through a
      kern_return_t; KernError covers every other status an IOKit entry point
      can report. */
  datatype KernReturn = KernSuccess | KernFailure | SmcKeyNotFound | KernError(code: int)

  /** A status that an IOKit call reports when it did not succeed. */
  type FailureStatus = k: KernReturn | !k.KernSuccess? witness KernFailure

  /** The result byte the controller puts into every answer record. */
  datatype SmcResult = ResultSuccess | ResultKeyNotFound | ResultError(code: byte)

  /** What the controller reports about a key (and what the program expects). */
  datatype Schema = Schema(dataType: uint32, dataSize: byte, dataAttributes: byte)

  /** The three controller operations the program uses. */
  datatype Opcode = GetKeyInfo | ReadKey | WriteKey

  /** Capacity of the payload area of one transaction record. */
  const PayloadCapacity: nat := 32

  function Zeros(n: nat): (z: seq<byte>)
    ensures |z| == n
    ensures forall i :: 0 <= i < n ==> z[i] == 0
  {
    seq(n, _ => 0)
  }

  /** The payload area: always exactly PayloadCapacity bytes. */
  type Payload = s: seq<byte> | |s| == PayloadCapacity witness Zeros(PayloadCapacity)

  const EmptyPayload: Payload := Zeros(PayloadCapacity)

  /** The fields of the request record that the program sets: the key, the
      operation, the dataSize of the key-info part, and the payload bytes. */
  datatype Request = Request(key: uint32, op: Opcode, dataSize: byte, payload: Payload)

  /** One round trip's outcome: either the call itself failed, or the
      controller answered with a record. */
  datatype Reply =
    | TransportFailure(status: FailureStatus)
    | Answer(result: SmcResult, info: Schema, payload: Payload)

  /** The controller, seen from the program: its answer to a request may
      depend on every request sent before it, which covers any controller
      state. */
  type Controller = (seq<Request>, Request) -> Reply

  /** The two keys the program knows, with their expected schemas. The key and
      type ids are four-character literals packed most-significant first. */
  const Ch0cKey: uint32 := 0x4348_3043     // 'CH0C', legacy key
  const Ch0cSchema: Schema := Schema(0x6865_785F, 1, 0xD4)  // 'hex_', 1 byte
  const ChteKey: uint32 := 0x4348_5445     // 'CHTE', newer systems
  const ChteSchema: Schema := Schema(0x7569_3332, 4, 0xD4)  // 'ui32', 4 bytes

  /** The process exit statuses. */
  const ExitSuccess: int := 0
  const ExitFailure: int := 1
}
