/**
 One key-toggle attempt (toggle_smc_key): GetKeyInfo, schema check, ReadKey,
 toggle, WriteKey, over an abstract controller. The attempt returns the status
 code the C function returns, the requests it sent, and the payload it wrote.
 */
module KeyProtocol {
  import opened SmcTypes
  import opened ByteOrder
  import opened ToggleValue

  datatype Attempt = Attempt(key: uint32, ret: KernReturn, sent: seq<Request>, written: Option<Payload>)

  /** The key-info request: only the key and the opcode are set. */
  function InfoRequest(key: uint32): Request {
    Request(key, GetKeyInfo, 0, EmptyPayload)
  }

  /** The read request additionally carries the expected data size. */
  function ReadRequest(key: uint32, size: byte): Request {
    Request(key, ReadKey, size, EmptyPayload)
  }

  /** The write request reuses the read request's key and size. */
  function WriteRequest(key: uint32, size: byte, payload: Payload): Request {
    Request(key, WriteKey, size, payload)
  }

  predicate Succeeded(r: Reply) {
    r.Answer? && r.result == ResultSuccess
  }

  predicate KeyMissing(r: Reply) {
    r.Answer? && r.result == ResultKeyNotFound
  }

  /** The key-info answer lets the attempt go on: success, and the reported
      schema equals the expected one in type, size and attributes. */
  predicate InfoAccepted(r: Reply, expected: Schema) {
    && Succeeded(r)
    && r.info.dataType == expected.dataType
    && r.info.dataSize == expected.dataSize
    && r.info.dataAttributes == expected.dataAttributes
  }

  /** Requests sent before `sent[i]` in the whole session. */
  function Before(prior: seq<Request>, sent: seq<Request>, i: nat): seq<Request>
    requires i <= |sent|
  {
    prior + sent[..i]
  }

  /** The answer the controller gave to the i-th request of an attempt. */
  function ReplyTo(ctl: Controller, prior: seq<Request>, sent: seq<Request>, i: nat): Reply
    requires i < |sent|
  {
    ctl(Before(prior, sent, i), sent[i])
  }

  function ToggleKey(ctl: Controller, prior: seq<Request>, key: uint32, expected: Schema, e: Endian): (a: Attempt)
    // requests: at most three, in the order key info, read, write, all for this key
    ensures a.key == key
    ensures 1 <= |a.sent| <= 3
    ensures a.sent[0] == InfoRequest(key)
    ensures |a.sent| >= 2 ==> a.sent[1] == ReadRequest(key, expected.dataSize)
    ensures |a.sent| == 3 ==> a.sent[2].key == key && a.sent[2].op == WriteKey
    ensures |a.sent| == 3 ==> a.sent[2].dataSize == expected.dataSize
    // a read is sent exactly when the key info was accepted
    ensures |a.sent| >= 2 <==> InfoAccepted(ctl(prior, InfoRequest(key)), expected)
    // a write is sent exactly when, in addition, the read succeeded; it carries the toggled value read
    ensures |a.sent| == 3 <==> |a.sent| >= 2 && Succeeded(ReplyTo(ctl, prior, a.sent, 1))
    ensures |a.sent| == 3 ==>
              a.sent[2].payload == TogglePayload(expected.dataSize, ReplyTo(ctl, prior, a.sent, 1).payload, e)
    // exactly one of three results
    ensures a.ret == KernSuccess || a.ret == SmcKeyNotFound || a.ret == KernFailure
    ensures a.ret == SmcKeyNotFound <==> KeyMissing(ctl(prior, InfoRequest(key)))
    ensures a.ret == SmcKeyNotFound ==> |a.sent| == 1
    ensures a.ret == KernSuccess <==> |a.sent| == 3 && Succeeded(ReplyTo(ctl, prior, a.sent, 2))
    // the written value is reported only on success
    ensures a.written.Some? <==> a.ret == KernSuccess
    ensures a.written.Some? ==> a.written.value == a.sent[2].payload
  {
    var info := InfoRequest(key);
    var infoReply := ctl(prior, info);
    if infoReply.TransportFailure? then
      Attempt(key, KernFailure, [info], None)
    else if infoReply.result == ResultKeyNotFound then
      Attempt(key, SmcKeyNotFound, [info], None)
    else if infoReply.result != ResultSuccess then
      Attempt(key, KernFailure, [info], None)
    else if infoReply.info.dataType != expected.dataType
         || infoReply.info.dataSize != expected.dataSize
         || infoReply.info.dataAttributes != expected.dataAttributes then
      Attempt(key, KernFailure, [info], None)
    else
      var read := ReadRequest(key, expected.dataSize);
      var readReply := ctl(prior + [info], read);
      if readReply.TransportFailure? || readReply.result != ResultSuccess then
        assert [info, read][..1] == [info];
        Attempt(key, KernFailure, [info, read], None)
      else
        var write := WriteRequest(key, expected.dataSize, TogglePayload(expected.dataSize, readReply.payload, e));
        var writeReply := ctl(prior + [info, read], write);
        assert [info, read, write][..1] == [info];
        assert [info, read, write][..2] == [info, read];
        if writeReply.TransportFailure? || writeReply.result != ResultSuccess then
          Attempt(key, KernFailure, [info, read, write], None)
        else
          Attempt(key, KernSuccess, [info, read, write], Some(write.payload))
  }

  /** A schema that differs in any single field stops the attempt after the
      key-info request: plain failure, and no read or write is sent. */
  lemma SchemaMismatchAborts(ctl: Controller, prior: seq<Request>, key: uint32, expected: Schema, e: Endian)
    requires Succeeded(ctl(prior, InfoRequest(key)))
    requires var got := ctl(prior, InfoRequest(key)).info;
             got.dataType != expected.dataType
             || got.dataSize != expected.dataSize
             || got.dataAttributes != expected.dataAttributes
    ensures ToggleKey(ctl, prior, key, expected, e).ret == KernFailure
    ensures |ToggleKey(ctl, prior, key, expected, e).sent| == 1
  {
  }

  /** A non-success answer to the read or the write, key-not-found included,
      gives plain failure and never the fallback signal. */
  lemma LateErrorsAreFatal(ctl: Controller, prior: seq<Request>, key: uint32, expected: Schema, e: Endian)
    requires var a := ToggleKey(ctl, prior, key, expected, e);
             |a.sent| >= 2 && !Succeeded(ReplyTo(ctl, prior, a.sent, |a.sent| - 1))
    ensures ToggleKey(ctl, prior, key, expected, e).ret == KernFailure
  {
  }
}
