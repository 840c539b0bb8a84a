/** What travels between the SDK and the transport: payload values, the
    request (verb, endpoint path, payload), the envelope the transport hands
    back, and the response object whose `data` the driver fills in. */
module Wire {
  import opened Wrappers

  datatype Verb = Get | Post

  /** A payload value. The source's payload dictionaries hold strings,
      integers and integer arrays (the scope lists of the rank queries). */
  datatype Value = VStr(str: string) | VInt(num: int) | VInts(ints: seq<int>)

  /** A keyed payload, built fresh for every call. */
  type Payload = map<string, Value>

  datatype Request = Request(verb: Verb, path: string, payload: Payload)

  /** What the transport returns: whether the call succeeded, the raw body
      and the error message. */
  datatype Envelope = Envelope(success: bool, raw: string, error: Option<string>)

  /** The JSON deserialiser for one result type; `None` is a null result. */
  type Decoder<T> = string -> Option<T>

  /** The observable state of a response object. */
  datatype Reply<T> = Reply(success: bool, raw: string, error: Option<string>, data: Option<T>)

  /** A response object as the transport creates it: the envelope copied,
      `data` not yet set. */
  function Received<T>(env: Envelope): (out: Reply<T>)
    ensures out.data == None
    ensures out.success == env.success && out.raw == env.raw && out.error == env.error
  {
    Reply(env.success, env.raw, env.error, None)
  }

  /** The decode rule every decoding operation applies: `data` becomes
      `decode(raw)` exactly when the call succeeded; success flag, raw body
      and error message are left as the transport set them. */
  function Finish<T>(env: Envelope, decode: Decoder<T>): (out: Reply<T>)
    ensures out.success == env.success && out.raw == env.raw && out.error == env.error
    ensures env.success ==> out.data == decode(env.raw)
    ensures !env.success ==> out.data == None
  {
    var r := Received<T>(env);
    if env.success then r.(data := decode(env.raw)) else r
  }

  /** On failure the result does not depend on the decoder, nor on the body. */
  lemma FailureIgnoresBody<T>(env: Envelope, other: string, d1: Decoder<T>, d2: Decoder<T>)
    requires !env.success
    ensures Finish(env, d1) == Finish(env.(raw := other), d2).(raw := env.raw)
    ensures Finish(env, d1).data == None
  {
  }

  /** On success, a body produced by encoding a value is decoded back to that
      value: the round trip of an encoder and a decoder that inverts it. */
  lemma SuccessRoundTrip<T>(x: T, encode: T -> string, decode: Decoder<T>, error: Option<string>)
    requires decode(encode(x)) == Some(x)
    ensures Finish(Envelope(true, encode(x), error), decode).data == Some(x)
  {
  }

  /** The response object. The transport creates it; the driver then sets
      `data` in place. */
  class Response<T> {
    const success: bool
    const raw: string
    const error: Option<string>
    var data: Option<T>

    constructor (env: Envelope)
      ensures View() == Received(env)
    {
      success, raw, error := env.success, env.raw, env.error;
      data := None;
    }

    function View(): Reply<T>
      reads this
    {
      Reply(success, raw, error, data)
    }
  }

  /** `LeaderboardScope`, the time window of leaderboard and rank queries. */
  datatype Scope = Daily | Weekly | Overall | Yesterday

  /** `(int)scope`: the scope's wire ordinal. */
  function ScopeOrd(s: Scope): (n: int)
    ensures 0 <= n < |AllScopes| && AllScopes[n] == s
  {
    match s
    case Daily => 0
    case Weekly => 1
    case Overall => 2
    case Yesterday => 3
  }

  lemma ScopeOrdInjective(a: Scope, b: Scope)
    ensures ScopeOrd(a) == ScopeOrd(b) ==> a == b
  {
  }

  /** The wire form of a scope list: the ordinal of each scope, in order. */
  function WireScopes(scopes: seq<Scope>): (w: seq<int>)
    ensures |w| == |scopes|
    ensures forall i :: 0 <= i < |scopes| ==> w[i] == ScopeOrd(scopes[i])
  {
    seq(|scopes|, i requires 0 <= i < |scopes| => ScopeOrd(scopes[i]))
  }

  /** The wire form determines the scope list, order included. */
  lemma {:induction false} WireScopesInjective(s1: seq<Scope>, s2: seq<Scope>)
    requires WireScopes(s1) == WireScopes(s2)
    ensures s1 == s2
  {
    assert |s1| == |s2|;
    forall i | 0 <= i < |s1| ensures s1[i] == s2[i] {
      assert WireScopes(s1)[i] == WireScopes(s2)[i];
      ScopeOrdInjective(s1[i], s2[i]);
    }
  }

  /** The default scope list of the multi-scope rank queries. */
  const AllScopes: seq<Scope> := [Daily, Weekly, Overall, Yesterday]

  /** The default list names every scope exactly once. */
  lemma AllScopesOnce(s: Scope)
    ensures multiset(AllScopes)[s] == 1
  {
  }
}
