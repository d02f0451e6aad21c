/**
 The session with the controller service (connect_to_smc and
 disconnect_from_smc). The IOKit calls become events in a trace; what each
 event acquires or releases is recorded in a ledger, so that "no leak" and
 "no release of something not held" become statements about the trace.
 */
module Session {
  import opened SmcTypes

  /** The connection handle; Null is MACH_PORT_NULL. */
  datatype Handle = Null | Port(name: nat)

  /** What the platform answers to the three calls of the open sequence. */
  datatype Platform = Platform(serviceFound: bool, openRet: KernReturn, port: nat, clientOpenRet: KernReturn)

  /** The IOKit calls the session makes, with the outcome each one reported. */
  datatype IoCall =
    | LookupService(found: bool)           // IOServiceGetMatchingService
    | OpenService(ret: KernReturn)         // IOServiceOpen
    | ReleaseService                       // IOObjectRelease on the service
    | ClientOpen(ret: KernReturn)          // kSMCUserClientOpen
    | ClientClose                          // kSMCUserClientClose, result ignored
    | CloseService                         // IOServiceClose on the connection
    | Transact(key: uint32, op: Opcode)    // one IOConnectCallStructMethod round trip

  /** The resources held: the service object, the connection, and the
      user-client open state on that connection. */
  datatype Ledger = Ledger(service: bool, connection: bool, clientOpen: bool)

  const Clean: Ledger := Ledger(false, false, false)

  /** A call may only use or release what is held, and may not acquire what
      is already held. */
  predicate Legal(l: Ledger, c: IoCall) {
    match c
    case LookupService(_) => !l.service
    case OpenService(_) => l.service && !l.connection
    case ReleaseService => l.service
    case ClientOpen(_) => l.connection && !l.clientOpen
    case ClientClose => l.connection
    case CloseService => l.connection
    case Transact(_, _) => l.connection && l.clientOpen
  }

  function Effect(l: Ledger, c: IoCall): Ledger {
    match c
    case LookupService(found) => l.(service := found)
    case OpenService(ret) => l.(connection := ret == KernSuccess)
    case ReleaseService => l.(service := false)
    case ClientOpen(ret) => l.(clientOpen := ret == KernSuccess)
    case ClientClose => l.(clientOpen := false)
    case CloseService => l.(connection := false, clientOpen := false)
    case Transact(_, _) => l
  }

  /** The ledger after a trace of calls. */
  function LedgerAfter(l: Ledger, calls: seq<IoCall>): Ledger
    decreases |calls|
  {
    if |calls| == 0 then l else LedgerAfter(Effect(l, calls[0]), calls[1..])
  }

  /** Every call of the trace is legal in the ledger it meets. */
  predicate LegalTrace(l: Ledger, calls: seq<IoCall>)
    decreases |calls|
  {
    |calls| == 0 || (Legal(l, calls[0]) && LegalTrace(Effect(l, calls[0]), calls[1..]))
  }

  /** The handle is non-null exactly while a connection is held, and the
      client is only open on a held connection. */
  predicate Consistent(h: Handle, l: Ledger) {
    && (h.Port? <==> l.connection)
    && (l.clientOpen ==> l.connection)
  }

  lemma {:induction false} LegalTraceAppend(l: Ledger, a: seq<IoCall>, b: seq<IoCall>)
    ensures LegalTrace(l, a + b) <==> LegalTrace(l, a) && LegalTrace(LedgerAfter(l, a), b)
    ensures LedgerAfter(l, a + b) == LedgerAfter(LedgerAfter(l, a), b)
    decreases |a|
  {
    if |a| > 0 {
      assert (a + b)[0] == a[0];
      assert (a + b)[1..] == a[1..] + b;
      LegalTraceAppend(Effect(l, a[0]), a[1..], b);
    } else {
      assert a + b == b;
    }
  }

  /** Appending one call to a trace: it must be legal where the trace ends,
      and its effect applies to the ledger there. */
  lemma AppendCall(l: Ledger, calls: seq<IoCall>, c: IoCall)
    ensures LegalTrace(l, calls + [c]) <==> LegalTrace(l, calls) && Legal(LedgerAfter(l, calls), c)
    ensures LedgerAfter(l, calls + [c]) == Effect(LedgerAfter(l, calls), c)
  {
    LegalTraceAppend(l, calls, [c]);
  }

  datatype Connection = Connection(ret: KernReturn, handle: Handle, calls: seq<IoCall>)

  /** The open sequence. A failed IOServiceOpen is taken to leave the handle
      null; the code itself only resets it when the client open fails. */
  function Connect(p: Platform): (c: Connection)
    // the outcome
    ensures c.ret == KernSuccess <==>
              p.serviceFound && p.openRet == KernSuccess && p.clientOpenRet == KernSuccess
    ensures !p.serviceFound ==> c.ret == KernFailure && c.calls == [LookupService(false)]
    ensures p.serviceFound && p.openRet != KernSuccess ==> c.ret == p.openRet
    ensures p.serviceFound && p.openRet == KernSuccess && p.clientOpenRet != KernSuccess ==>
              c.ret == p.clientOpenRet
    // resources: every call legal, the service always released, nothing held after a failure
    ensures LegalTrace(Clean, c.calls)
    ensures !LedgerAfter(Clean, c.calls).service
    ensures Consistent(c.handle, LedgerAfter(Clean, c.calls))
    ensures c.ret == KernSuccess ==> c.handle == Port(p.port) && LedgerAfter(Clean, c.calls).clientOpen
    ensures c.ret != KernSuccess ==> c.handle == Null && LedgerAfter(Clean, c.calls) == Clean
    // the service is released right after the open, whatever the open returned
    ensures p.serviceFound ==>
              |c.calls| >= 3 && c.calls[..3] == [LookupService(true), OpenService(p.openRet), ReleaseService]
  {
    if !p.serviceFound then
      Connection(KernFailure, Null, [LookupService(false)])
    else
      var looked := [LookupService(true)];
      var serviceOpened := looked + [OpenService(p.openRet)];
      var released := serviceOpened + [ReleaseService];
      AppendCall(Clean, looked, OpenService(p.openRet));
      AppendCall(Clean, serviceOpened, ReleaseService);
      if p.openRet != KernSuccess then
        Connection(p.openRet, Null, released)
      else
        var clientOpened := released + [ClientOpen(p.clientOpenRet)];
        AppendCall(Clean, released, ClientOpen(p.clientOpenRet));
        if p.clientOpenRet != KernSuccess then
          AppendCall(Clean, clientOpened, CloseService);
          Connection(p.clientOpenRet, Null, clientOpened + [CloseService])
        else
          Connection(KernSuccess, Port(p.port), clientOpened)
  }

  /** The round trips that carry the given key requests, one per request. */
  function KeyCalls(sent: seq<Request>): (calls: seq<IoCall>)
    ensures |calls| == |sent|
    ensures forall i :: 0 <= i < |sent| ==> calls[i] == Transact(sent[i].key, sent[i].op)
  {
    if |sent| == 0 then [] else [Transact(sent[0].key, sent[0].op)] + KeyCalls(sent[1..])
  }

  /** Key round trips are legal on an open session with the client open, and
      leave the session as it was. */
  lemma {:induction false} KeyCallsKeepSession(l: Ledger, sent: seq<Request>)
    requires l.connection && l.clientOpen
    ensures LegalTrace(l, KeyCalls(sent)) && LedgerAfter(l, KeyCalls(sent)) == l
    decreases |sent|
  {
    if |sent| > 0 {
      var calls := KeyCalls(sent);
      assert calls[1..] == KeyCalls(sent[1..]);
      KeyCallsKeepSession(l, sent[1..]);
    }
  }

  datatype Disconnection = Disconnection(handle: Handle, calls: seq<IoCall>)

  function Disconnect(h: Handle): (d: Disconnection)
    ensures d.handle == Null
    ensures h == Null ==> d.calls == []
    ensures h != Null ==> d.calls == [ClientClose, CloseService]
    // from any consistent state, closing is legal and releases the connection and client state
    ensures forall l: Ledger :: Consistent(h, l) ==>
              && LegalTrace(l, d.calls)
              && LedgerAfter(l, d.calls) == l.(connection := false, clientOpen := false)
  {
    if h == Null then Disconnection(Null, [])
    else Disconnection(Null, [ClientClose, CloseService])
  }

  /** Disconnecting twice in a row is the same as disconnecting once. */
  lemma DisconnectIdempotent(h: Handle)
    ensures Disconnect(Disconnect(h).handle) == Disconnection(Null, [])
  {
  }

  /** A failed open leaves nothing behind: repeating it is legal and again
      leaves nothing behind, with the same outcome. */
  lemma FailedConnectRepeatable(p: Platform)
    requires Connect(p).ret != KernSuccess
    ensures LegalTrace(Clean, Connect(p).calls + Connect(p).calls)
    ensures LedgerAfter(Clean, Connect(p).calls + Connect(p).calls) == Clean
  {
    LegalTraceAppend(Clean, Connect(p).calls, Connect(p).calls);
  }

  /** A session that is opened and then closed leaks nothing, whichever way
      the open went. */
  lemma ConnectThenDisconnectIsClean(p: Platform)
    ensures var c := Connect(p);
            var calls := c.calls + Disconnect(c.handle).calls;
            LegalTrace(Clean, calls) && LedgerAfter(Clean, calls) == Clean
  {
    var c := Connect(p);
    LegalTraceAppend(Clean, c.calls, Disconnect(c.handle).calls);
  }
}
