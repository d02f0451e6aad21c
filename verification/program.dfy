/**
 The program's main: open the session, toggle the legacy key, fall back to
 the newer key only when the legacy key does not exist, close the session,
 and derive the exit status.
 */
module Program {
  import opened SmcTypes
  import opened ByteOrder
  import opened KeyProtocol
  import opened Session

  /** One run of the program: its exit status, the key attempts made, every
      request sent to the controller in order, and the session's IOKit calls. */
  datatype Run = Run(exit: int, attempts: seq<Attempt>, sent: seq<Request>, io: seq<IoCall>)

  /** Legacy key first; the newer key if and only if the legacy key is missing. */
  function ToggleWithFallback(ctl: Controller, e: Endian): (attempts: seq<Attempt>)
    ensures 1 <= |attempts| <= 2
    ensures attempts[0].key == Ch0cKey
    ensures attempts[0] == ToggleKey(ctl, [], Ch0cKey, Ch0cSchema, e)
    ensures |attempts| == 2 <==> KeyMissing(ctl([], InfoRequest(Ch0cKey)))
    ensures |attempts| == 2 ==> attempts[1].key == ChteKey
    ensures |attempts| == 2 ==> attempts[1] == ToggleKey(ctl, attempts[0].sent, ChteKey, ChteSchema, e)
  {
    var legacy := ToggleKey(ctl, [], Ch0cKey, Ch0cSchema, e);
    if legacy.ret == SmcKeyNotFound then
      [legacy, ToggleKey(ctl, legacy.sent, ChteKey, ChteSchema, e)]
    else
      [legacy]
  }

  function Main(p: Platform, ctl: Controller, e: Endian): (r: Run)
    ensures r.exit == ExitSuccess || r.exit == ExitFailure
    // a failed connect ends the run before any key attempt
    ensures Connect(p).ret != KernSuccess ==> r.exit == ExitFailure && r.attempts == [] && r.sent == []
    ensures Connect(p).ret == KernSuccess ==> r.attempts == ToggleWithFallback(ctl, e)
    // at most two attempts; the second only after the first reported a missing key
    ensures |r.attempts| <= 2
    ensures |r.attempts| == 2 ==> r.attempts[0].ret == SmcKeyNotFound && r.attempts[1].key == ChteKey
    ensures |r.attempts| == 1 ==> r.attempts[0].ret != SmcKeyNotFound && r.sent == r.attempts[0].sent
    ensures |r.attempts| == 2 ==> r.sent == r.attempts[0].sent + r.attempts[1].sent
    ensures |r.sent| <= 4
    // the exit status reflects the last attempt
    ensures r.exit == ExitSuccess <==> |r.attempts| > 0 && r.attempts[|r.attempts| - 1].ret == KernSuccess
    // every key request goes out on the open session, between connect and disconnect
    ensures Connect(p).ret != KernSuccess ==> r.io == Connect(p).calls
    ensures Connect(p).ret == KernSuccess ==>
              r.io == Connect(p).calls + KeyCalls(r.sent) + Disconnect(Connect(p).handle).calls
    // the session leaks nothing, releases nothing twice, and is open for every round trip
    ensures LegalTrace(Clean, r.io) && LedgerAfter(Clean, r.io) == Clean
  {
    var c := Connect(p);
    if c.ret != KernSuccess then
      Run(ExitFailure, [], [], c.calls)
    else
      var attempts := ToggleWithFallback(ctl, e);
      var sent := if |attempts| == 1 then attempts[0].sent else attempts[0].sent + attempts[1].sent;
      var last := attempts[|attempts| - 1];
      var d := Disconnect(c.handle);
      var connected := LedgerAfter(Clean, c.calls);
      KeyCallsKeepSession(connected, sent);
      LegalTraceAppend(connected, KeyCalls(sent), d.calls);
      LegalTraceAppend(Clean, c.calls, KeyCalls(sent) + d.calls);
      assert c.calls + KeyCalls(sent) + d.calls == c.calls + (KeyCalls(sent) + d.calls);
      Run(if last.ret != KernSuccess then ExitFailure else ExitSuccess, attempts, sent,
          c.calls + KeyCalls(sent) + d.calls)
  }

  /** The newer key is tried if and only if the legacy key's key-info answer
      said the key does not exist; any other legacy failure ends the run. */
  lemma FallbackOnlyOnMissingKey(p: Platform, ctl: Controller, e: Endian)
    requires Connect(p).ret == KernSuccess
    ensures var r := Main(p, ctl, e);
            (exists i :: 0 <= i < |r.attempts| && r.attempts[i].key == ChteKey)
              <==> KeyMissing(ctl([], InfoRequest(Ch0cKey)))
  {
    var r := Main(p, ctl, e);
    assert Ch0cKey != ChteKey;
    if KeyMissing(ctl([], InfoRequest(Ch0cKey))) {
      assert r.attempts[1].key == ChteKey;
    }
  }
}
