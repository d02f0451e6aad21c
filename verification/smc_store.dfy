/**
 A reference controller: a table from key ids to a schema and a stored value,
 answering key-info, read and write requests the way the controller's
 protocol describes them. Running the program against it shows what a run
 does to the controller's state, and that two runs in a row give a toggled
 key back its original value.
 */
module SmcStore {
  import opened SmcTypes
  import opened ByteOrder
  import opened ToggleValue
  import opened KeyProtocol
  import opened Session
  import opened Program

  datatype Entry = Entry(schema: Schema, value: Payload)

  type Store = map<uint32, Entry>

  const NoSchema: Schema := Schema(0, 0, 0)

  function Respond(s: Store, req: Request): Reply {
    if req.key !in s then
      Answer(ResultKeyNotFound, NoSchema, EmptyPayload)
    else
      match req.op
      case GetKeyInfo => Answer(ResultSuccess, s[req.key].schema, EmptyPayload)
      case ReadKey => Answer(ResultSuccess, NoSchema, s[req.key].value)
      case WriteKey => Answer(ResultSuccess, NoSchema, EmptyPayload)
  }

  /** Only a write to an existing key changes the table. */
  function Apply(s: Store, req: Request): Store {
    if req.op == WriteKey && req.key in s then s[req.key := s[req.key].(value := req.payload)] else s
  }

  function StoreAfter(s: Store, history: seq<Request>): Store
    decreases |history|
  {
    if |history| == 0 then s else StoreAfter(Apply(s, history[0]), history[1..])
  }

  /** The table as a controller: each request is answered from the table as
      left by all earlier requests. */
  function StoreController(s0: Store): Controller {
    (history: seq<Request>, req: Request) => Respond(StoreAfter(s0, history), req)
  }

  /** The table after one run of the program against it. */
  function RunOnStore(p: Platform, s: Store, e: Endian): Store {
    StoreAfter(s, Main(p, StoreController(s), e).sent)
  }

  /** The key's entry exists and carries the schema the program expects. */
  predicate Matches(s: Store, key: uint32, expected: Schema) {
    key in s && s[key].schema == expected
  }

  /** The table with the key's value toggled as the program toggles it. */
  function Toggled(s: Store, key: uint32, e: Endian): Store
    requires key in s
  {
    s[key := s[key].(value := TogglePayload(s[key].schema.dataSize, s[key].value, e))]
  }

  lemma {:induction false} StoreAfterAppend(s: Store, a: seq<Request>, b: seq<Request>)
    ensures StoreAfter(s, a + b) == StoreAfter(StoreAfter(s, a), b)
    decreases |a|
  {
    if |a| > 0 {
      assert (a + b)[0] == a[0];
      assert (a + b)[1..] == a[1..] + b;
      StoreAfterAppend(Apply(s, a[0]), a[1..], b);
    } else {
      assert a + b == b;
    }
  }

  lemma StoreAfterOne(s: Store, req: Request)
    ensures StoreAfter(s, [req]) == Apply(s, req)
  {
    assert [req][1..] == [];
  }

  /** One attempt against the table: it succeeds exactly when the key exists
      with the expected schema, and then it writes the toggled value; it
      reports a missing key exactly when the key is absent; no other attempt
      changes the table. */
  lemma AttemptOnStore(s0: Store, prior: seq<Request>, key: uint32, expected: Schema, e: Endian)
    requires StoreAfter(s0, prior) == s0
    ensures var a := ToggleKey(StoreController(s0), prior, key, expected, e);
            && (a.ret == KernSuccess <==> Matches(s0, key, expected))
            && (a.ret == SmcKeyNotFound <==> key !in s0)
            && (Matches(s0, key, expected) ==> StoreAfter(s0, prior + a.sent) == Toggled(s0, key, e))
            && (!Matches(s0, key, expected) ==> StoreAfter(s0, prior + a.sent) == s0)
  {
    var ctl := StoreController(s0);
    var a := ToggleKey(ctl, prior, key, expected, e);
    var info := InfoRequest(key);
    StoreAfterAppend(s0, prior, a.sent);
    assert ctl(prior, info) == Respond(s0, info);
    if |a.sent| == 1 {
      StoreAfterOne(s0, info);
    } else {
      var read := a.sent[1];
      StoreAfterAppend(s0, prior, [info]);
      StoreAfterOne(s0, info);
      assert a.sent[..1] == [info];
      assert StoreAfter(s0, Before(prior, a.sent, 1)) == s0;
      assert ReplyTo(ctl, prior, a.sent, 1) == Respond(s0, read);
      StoreAfterAppend(s0, [info], [read]);
      StoreAfterOne(s0, read);
      // the table answers every read of a key it has: the write follows
      var write := a.sent[2];
      assert a.sent[..2] == [info] + [read];
      StoreAfterAppend(s0, prior, a.sent[..2]);
      assert ReplyTo(ctl, prior, a.sent, 2) == Respond(s0, write);
      assert a.sent == a.sent[..2] + [write];
      StoreAfterAppend(s0, a.sent[..2], [write]);
      StoreAfterOne(s0, write);
    }
  }

  /** What one run does to the table, once the session is open: the legacy key
      is toggled when it exists with its schema; otherwise, when the legacy key
      is absent, the newer key is toggled when it exists with its schema;
      in every other case the run fails and the table is unchanged. */
  lemma RunEffect(p: Platform, s0: Store, e: Endian)
    requires Connect(p).ret == KernSuccess
    ensures var r := Main(p, StoreController(s0), e);
            var s1 := StoreAfter(s0, r.sent);
            && (Matches(s0, Ch0cKey, Ch0cSchema) ==> r.exit == ExitSuccess && s1 == Toggled(s0, Ch0cKey, e))
            && (Ch0cKey !in s0 && Matches(s0, ChteKey, ChteSchema) ==>
                  r.exit == ExitSuccess && s1 == Toggled(s0, ChteKey, e))
            && (r.exit == ExitSuccess <==>
                  Matches(s0, Ch0cKey, Ch0cSchema) || (Ch0cKey !in s0 && Matches(s0, ChteKey, ChteSchema)))
            && (r.exit != ExitSuccess ==> s1 == s0)
  {
    var ctl := StoreController(s0);
    var r := Main(p, ctl, e);
    assert StoreAfter(s0, []) == s0;
    AttemptOnStore(s0, [], Ch0cKey, Ch0cSchema, e);
    var first := r.attempts[0];
    assert [] + first.sent == first.sent;
    if first.ret == SmcKeyNotFound {
      AttemptOnStore(s0, first.sent, ChteKey, ChteSchema, e);
      StoreAfterAppend(s0, first.sent, r.attempts[1].sent);
    }
  }

  /** The values this program writes: 0 or 1 in the meaningful bytes and
      nothing after them. */
  predicate Canonical(s: Store, key: uint32, e: Endian)
    requires key in s
  {
    var size := s[key].schema.dataSize;
    && (size == 1 || size == 4)
    && Decode(Value(s[key].value, size), e) <= 1
    && forall i :: size as nat <= i < PayloadCapacity ==> s[key].value[i] == 0
  }

  lemma ToggledTwice(s: Store, key: uint32, e: Endian)
    requires key in s
    requires Canonical(s, key, e)
    ensures Toggled(Toggled(s, key, e), key, e) == s
  {
    ToggleTwiceCanonical(s[key].schema.dataSize, s[key].value, e);
  }

  /** Running the program twice gives the table back, provided the toggled
      key held a value the program itself could have written. */
  lemma RunTwiceRestores(p: Platform, s0: Store, e: Endian)
    requires Connect(p).ret == KernSuccess
    requires Matches(s0, Ch0cKey, Ch0cSchema) ==> Canonical(s0, Ch0cKey, e)
    requires Ch0cKey !in s0 && Matches(s0, ChteKey, ChteSchema) ==> Canonical(s0, ChteKey, e)
    ensures RunOnStore(p, RunOnStore(p, s0, e), e) == s0
  {
    var s1 := RunOnStore(p, s0, e);
    RunEffect(p, s0, e);
    RunEffect(p, s1, e);
    if Matches(s0, Ch0cKey, Ch0cSchema) {
      ToggledTwice(s0, Ch0cKey, e);
    } else if Ch0cKey !in s0 && Matches(s0, ChteKey, ChteSchema) {
      ToggledTwice(s0, ChteKey, e);
    }
  }

  /** For any stored value, two runs restore whether the toggled key is set. */
  lemma RunTwiceKeepsTruth(p: Platform, s0: Store, key: uint32, e: Endian)
    requires Connect(p).ret == KernSuccess
    requires || (Matches(s0, Ch0cKey, Ch0cSchema) && key == Ch0cKey)
             || (Ch0cKey !in s0 && Matches(s0, ChteKey, ChteSchema) && key == ChteKey)
    ensures var s2 := RunOnStore(p, RunOnStore(p, s0, e), e);
            var size := s0[key].schema.dataSize;
            && key in s2 && s2[key].schema == s0[key].schema
            && (IsSet(s2[key].value, size) <==> IsSet(s0[key].value, size))
  {
    var s1 := RunOnStore(p, s0, e);
    RunEffect(p, s0, e);
    RunEffect(p, s1, e);
    ToggleTwiceKeepsTruth(s0[key].schema.dataSize, s0[key].value, e);
  }
}
