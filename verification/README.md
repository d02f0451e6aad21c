# SMC key toggle — a Dafny model

`ibc` flips one boolean-like setting (the charge-limit toggle) held by the
Apple System Management Controller (SMC). It opens a user-client session with
the `AppleSMC` service, asks the controller for the key's metadata, checks it
against the schema it expects, reads the current value, writes back its
logical negation, and closes the session. The legacy key `CH0C` (1-byte
`hex_`) is tried first; only when the controller says that key does not exist
is the newer key `CHTE` (4-byte `ui32`) tried.

This project models that protocol in Dafny and proves its properties:

- `smc_types.dfy` (`SmcTypes`): bytes, 32-bit words, the kernel and controller
  status codes, key schemas, the request/answer record of one round trip, the
  controller as a function of the request history, and the two keys with
  their schemas.
- `byte_order.dfy` (`ByteOrder`): reading and writing a word in either byte
  order, both round trips, and "the value is zero iff every byte is zero".
- `toggle_value.dfy` (`ToggleValue`): the negation of a 1-byte and of a
  4-byte value and the write payload built from it.
- `key_protocol.dfy` (`KeyProtocol`): one key attempt (`toggle_smc_key`):
  which requests go out, in which order, what is written and which of the
  three results comes back, for every answer the controller can give.
- `session.dfy` (`Session`): `connect_to_smc` / `disconnect_from_smc` as
  traces of IOKit calls over a resource ledger (service object, connection,
  user-client open state).
- `program.dfy` (`Program`): `main` — connect, legacy key, fallback key,
  disconnect, exit status.
- `smc_store.dfy` (`SmcStore`): a reference controller holding a table of
  keys, used to show what a run does to the controller's state and that two
  runs give the toggled key back its value.

The controller is not modelled as a device. The program sees it only through
its answers, so a `Controller` is any function from (requests sent so far,
current request) to an answer: a transport failure carrying a non-success
kernel status, or a record with a result code, a schema and a 32-byte payload.
Every property of `KeyProtocol` and `Program` holds for every such function.
`SmcStore` is one particular controller, a key/value table; the results that
mention it depend on that choice of controller.

Three facts about the code that the model keeps:

- The code never checks `output_size` (src/ibc.c:101, 106, 133, 155), so the
  model has no length check on the controller's answers.
- Every failure after connecting is returned as `KERN_FAILURE`
  (src/ibc.c:111, 121, 127, 138, 144, 160, 166), except a key-not-found
  answer to the key-info request, which returns `kSMCKeyNotFound`
  (src/ibc.c:114-116). When that happens on the `CHTE` attempt, `main` exits
  with status 1 (src/ibc.c:43-52). The model does not tell transport errors,
  rejections and schema mismatches apart either.
- An attempt sends at most three requests, and the fallback attempt only
  follows an attempt that sent one, so `Program.Main` proves a run sends at
  most four requests.

## Model

| member | source | states |
|---|---|---|
| ByteOrder.DecodeEncode | src/ibc.c:152 | a word written into the payload and read back in the same byte order is the same word |
| ByteOrder.EncodeDecode | src/ibc.c:152 | four bytes read as a word and written back in the same byte order are the same bytes |
| ByteOrder.DecodeZero | src/ibc.c:152 | the four bytes read as a word give zero exactly when all four bytes are zero, in either byte order |
| ByteOrder.ZeroTestIgnoresOrder | src/ibc.c:152 | whether the word read is zero does not depend on the host byte order |
| ToggleValue.NotByte | src/ibc.c:150 | the negated byte is 0 or 1, and 1 exactly when the byte read is 0 |
| ToggleValue.NotWord | src/ibc.c:152 | the negated word is 0 or 1 in the host byte order, and 1 exactly when all four bytes read are zero |
| ToggleValue.TogglePayload | src/ibc.c:147-153 | the write payload holds the negated byte (size 1) or the negated word (size 4) and zeros everywhere else; for any other size it is all zeros |
| ToggleValue.ToggleFlips | src/ibc.c:149-153 | for sizes 1 and 4 the value written is set exactly when the value read was not, whatever the byte order |
| ToggleValue.ToggleTwiceKeepsTruth | src/ibc.c:149-153 | negating twice restores whether the value is set, for every value read |
| ToggleValue.ToggleTwiceCanonical | src/ibc.c:149-153 | a payload holding 0 or 1 with zeros after it comes back unchanged after two negations |
| KeyProtocol.ToggleKey | src/ibc.c:99-176 | one attempt sends 1 to 3 requests, always key info, then read, then write, for the same key; the read carries the expected size and so does the write; a read goes out exactly when the key info succeeded with the expected type, size and attributes; a write exactly when the read then succeeded, and it carries the negated value read; the result is success, key-not-found or failure; key-not-found exactly when the key-info answer said so, after one request; success exactly when the write was answered with success, and only then is the written payload reported |
| KeyProtocol.SchemaMismatchAborts | src/ibc.c:124-128 | a key-info answer whose type, size or attributes differ from the expected ones ends the attempt with failure after that one request |
| KeyProtocol.LateErrorsAreFatal | src/ibc.c:133-167 | any non-success at the read or the write, key-not-found included, gives plain failure, never the fallback signal |
| Session.Connect | src/ibc.c:55-85 | the open succeeds exactly when the service is found, the open succeeds and the client open succeeds; otherwise it returns failure for a missing service and the failing call's status otherwise; every IOKit call is legal, the calls after a found service start with lookup, open, release, so the service object is released right after the open on both outcomes, and after a failure nothing is held and the handle is null (for a failed `IOServiceOpen`, by the assumption under Left out) |
| Session.Disconnect | src/ibc.c:87-97 | a null handle gives no calls; otherwise client close then connection close; the handle ends null and, from any consistent state, the connection and client state are released legally |
| Session.DisconnectIdempotent | src/ibc.c:87-97 | disconnecting a second time makes no calls and leaves the handle null |
| Session.FailedConnectRepeatable | src/ibc.c:55-85 | a failed open leaves nothing held, so repeating it is legal and again leaves nothing held |
| Session.KeyCallsKeepSession | src/ibc.c:106-155 | the key round trips are legal on an open connection with the client open and leave the session state as it was |
| Session.ConnectThenDisconnectIsClean | src/ibc.c:55-97 | opening and then closing the session makes only legal calls and leaves nothing held, whatever the open returned |
| Program.ToggleWithFallback | src/ibc.c:36-48 | the legacy key is tried first; the newer key is tried, once, exactly when the legacy key-info answer said the key does not exist |
| Program.Main | src/ibc.c:26-53 | a failed connect exits with failure before any request; otherwise at most two attempts, the second only after key-not-found; at most four requests in all; the exit status is 0 exactly when the last attempt succeeded; the IOKit calls are the connect calls, then one round trip per key request, then the disconnect calls, every round trip happens while the connection is held and the client is open, and the whole trace is legal and leaves nothing held |
| Program.FallbackOnlyOnMissingKey | src/ibc.c:42-48 | once connected, a `CHTE` attempt is made if and only if the `CH0C` key-info answer said the key does not exist |
| SmcStore.AttemptOnStore | src/ibc.c:99-176 | against a key table, an attempt succeeds exactly when the key exists with the expected schema and then writes the toggled value; it reports key-not-found exactly when the key is absent; otherwise the table is unchanged |
| SmcStore.RunEffect | src/ibc.c:26-53 | against a key table, a run toggles `CH0C` when it exists with its schema, else `CHTE` when `CH0C` is absent and `CHTE` exists with its schema, and exits 0 exactly then; a failing run leaves the table unchanged |
| SmcStore.RunTwiceRestores | src/ibc.c:26-53 | two runs in a row give back the table whenever the key a run would toggle held 0 or 1 with zeros after it; tables where nothing is toggled come back unchanged too |
| SmcStore.RunTwiceKeepsTruth | src/ibc.c:26-53 | two runs in a row restore whether the toggled key is set, for every value it held |

## Left out

- The IOKit and Mach calls (`IOServiceGetMatchingService`, `IOServiceOpen`,
  `IOObjectRelease`, `IOConnectCallMethod`, `IOConnectCallStructMethod`,
  `IOServiceClose`) are foreign code. Their outcomes are inputs: a `Platform`
  value for the session calls and a `Controller` function for the key
  transactions. What they acquire and release is the ledger in `Session`.
- `SMCParamStruct.h` is not part of this model. The record layout is reduced
  to the fields the program sets and reads. The opcodes and the status
  constants are datatype constructors, so only their distinctness is used. The
  payload capacity is taken to be 32 bytes.
- The key and type ids (`'CH0C'`, `'hex_'`, `'CHTE'`, `'ui32'`) are C
  multi-character literals with implementation-defined values. They are given
  the usual packing, most significant character first; the proofs only use
  that the two keys differ.
- The host byte order used by the pointer cast at src/ibc.c:152 is a parameter
  (`Endian`). Nothing else about the memory layout is modelled.
- All stderr diagnostics and the stdout line (`mach_error_string`,
  `KEY_TO_CHARS`, `%02x`/`%08x`) are left out. A successful attempt instead
  returns the payload it wrote.
- The result of the client-close call is ignored by the code, and the model
  does not carry it either.
- The status an `IOServiceOpen` or client-open failure returns is passed
  through unchanged. The model does not relate its numeric value to
  `KERN_FAILURE` or to the key-not-found code. This does not matter, because
  `main` only compares it with `KERN_SUCCESS`.
- SmcStore.Respond: the reference controller is an assumption of the model,
  not part of the program. It accepts every read and write of a key it holds
  and stores the whole written payload.
- Session.Connect: a failed `IOServiceOpen` is taken to leave the handle
  `MACH_PORT_NULL`. The code at src/ibc.c:68-72 does not reset the handle;
  what `IOServiceOpen` leaves there on failure is up to the foreign library.
  Only the client-open failure path resets it (src/ibc.c:81). This
  does not change what the program does, because `main` never disconnects
  after a failed connect (src/ibc.c:32-34).
- Session.ConnectThenDisconnectIsClean: "whatever the open returned" relies on
  the same assumption about a failed `IOServiceOpen`. `Program.Main` itself
  never disconnects after a failed connect, so its io trace does not depend
  on it.
