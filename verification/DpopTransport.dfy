/**
  Requests to a node: which attempts one call may make, and what may cause another attempt. Nonce challenges are those
  of sections 8 and 9 of RFC 9449; the network answers from a script, and records what it was sent.
 */
module DpopTransport {
  import opened Option

  /** The parts of a request that must stay the same in every attempt. */
  datatype Call = Call(verb: string, route: string, body: Option<string>, idempotencyKey: Option<string>)
  datatype Attempt = Attempt(call: Call, access: Option<string>, nonce: Option<string>)

  datatype Reply =
    | Json(data: string)
    | HttpError(status: int, code: Option<string>, nonce: Option<string>)
    | NetworkError

  datatype Outcome = Answer(data: string) | Failed(reply: Reply) | InvalidTarget | SessionChanged | AccessFailed

  class Network {
    var script: seq<Reply>
    var sent: seq<Attempt>

    constructor (script: seq<Reply>)
      ensures this.script == script && sent == []
    {
      this.script, sent := script, [];
    }

    method Send(a: Attempt) returns (r: Reply)
      modifies this
      ensures sent == old(sent) + [a]
      ensures r == Next(old(script)) && script == Rest(old(script))
    {
      r := Next(script);
      script := Rest(script);
      sent := sent + [a];
    }
  }

  /** A server that says nothing more has failed the transport. */
  function Next(script: seq<Reply>): Reply { if script == [] then NetworkError else script[0] }
  function Rest(script: seq<Reply>): seq<Reply> { if script == [] then [] else script[1..] }

  predicate NonceChar(c: char) { 'A' <= c <= 'Z' || 'a' <= c <= 'z' || '0' <= c <= '9' || c == '_' || c == '-' }

  predicate ValidNonce(n: string) { 16 <= |n| <= 128 && forall i :: 0 <= i < |n| ==> NonceChar(n[i]) }

  predicate NonceChallenge(r: Reply) {
    r.HttpError? && r.status in {400, 401} && r.code == Some("use_dpop_nonce") && r.nonce.Some? && ValidNonce(r.nonce.value)
  }

  predicate TokenRejected(r: Reply) { r.HttpError? && r.status == 401 && r.code == Some("invalid_token") }

  function Outcomes(r: Reply): Outcome { if r.Json? then Answer(r.data) else Failed(r) }

  predicate LocalRoute(route: string) {
    |route| > 0 && route[0] == '/' && !(|route| > 1 && route[1] == '/')
  }

  /** What one DpopClient.request sends: a single repetition, and only for an explicit nonce challenge. */
  predicate SignedExchange(added: seq<Attempt>, call: Call, access: Option<string>, before: Option<string>,
                           script: seq<Reply>, rest: seq<Reply>, last: Reply)
  {
    var first := Next(script);
    if NonceChallenge(first) then
      && added == [Attempt(call, access, before), Attempt(call, access, first.nonce)]
      && rest == Rest(Rest(script)) && last == Next(Rest(script))
    else
      added == [Attempt(call, access, before)] && rest == Rest(script) && last == first
  }

  /** The request signer of one origin. */
  class DpopClient {
    var nonce: Option<string>

    constructor ()
      ensures nonce == None
    {
      nonce := None;
    }

    /** `sameOrigin` tells whether the route resolves inside the client's origin. */
    method Request(net: Network, call: Call, access: Option<string>, sameOrigin: bool) returns (r: Outcome, ghost last: Reply)
      modifies this, net
      ensures !(LocalRoute(call.route) && sameOrigin) ==>
                r == InvalidTarget && net.sent == old(net.sent) && net.script == old(net.script) && nonce == old(nonce)
      ensures LocalRoute(call.route) && sameOrigin ==>
                && r == Outcomes(last)
                && old(net.sent) <= net.sent
                && SignedExchange(net.sent[|old(net.sent)|..], call, access, old(nonce), old(net.script), net.script, last)
                && nonce == if NonceChallenge(Next(old(net.script))) then Next(old(net.script)).nonce else old(nonce)
    {
      last := NetworkError;
      if !LocalRoute(call.route) || !sameOrigin {
        return InvalidTarget, last;
      }
      var attempt := 0;
      while attempt < 2
        invariant 0 <= attempt <= 1
        invariant attempt == 0 ==> net.sent == old(net.sent) && net.script == old(net.script) && nonce == old(nonce)
        invariant attempt == 1 ==>
          && NonceChallenge(Next(old(net.script)))
          && net.sent == old(net.sent) + [Attempt(call, access, old(nonce))]
          && net.script == Rest(old(net.script)) && nonce == Next(old(net.script)).nonce
        decreases 2 - attempt
      {
        var reply := net.Send(Attempt(call, access, nonce));
        last := reply;
        if attempt != 0 || !NonceChallenge(reply) {
          return Outcomes(reply), last;
        }
        nonce := reply.nonce;
        attempt := attempt + 1;
      }
      assert false; // the throw after the loop is never reached
    }
  }

  /**
    What happens to the session while `ensureAccess` runs again: it may fail, and it may move the nonce. The token read
    afterwards may be gone again, dropped by the late rejection of another request.
   */
  datatype Renewal = Renewed(access: Option<string>, nonce: Option<string>) | RenewalFailed

  /** Whether the session is still current at the four places where a request asserts it. */
  datatype Currency = Currency(beforeFirst: bool, afterFirst: bool, afterRenewal: bool, afterSecond: bool)

  function Nth(script: seq<Reply>, i: int): Reply
    requires 0 <= i
  {
    if i < |script| then script[i] else NetworkError
  }

  /** How many attempts one signed exchange makes when the reply to its first one stands at `from`. */
  function Attempts(script: seq<Reply>, from: int): int
    requires 0 <= from
  {
    if NonceChallenge(Nth(script, from)) then 2 else 1
  }

  /** The reply that ends the first exchange of a call. */
  function FirstAnswer(script: seq<Reply>): Reply { Nth(script, Attempts(script, 0) - 1) }

  /** The reply that ends the second exchange of a call. */
  function SecondAnswer(script: seq<Reply>): Reply {
    var n := Attempts(script, 0);
    Nth(script, n + Attempts(script, n) - 1)
  }

  /** After its first exchange a call goes on to another one: the token was rejected and another one is there. */
  predicate GoesOn(script: seq<Reply>, renewal: Renewal, now: Currency) {
    TokenRejected(FirstAnswer(script)) && now.afterFirst && renewal.Renewed? && now.afterRenewal
  }

  /** The attempts of one exchange, in order: the second one answers the challenge in the reply to the first. */
  predicate ExchangeSent(sent: seq<Attempt>, call: Call, access: Option<string>, before: Option<string>,
                         script: seq<Reply>, from: int)
    requires 0 <= from
  {
    && |sent| == Attempts(script, from)
    && sent[0] == Attempt(call, access, before)
    && (|sent| == 2 ==> Nth(script, from).HttpError? && sent[1] == Attempt(call, access, Nth(script, from).nonce))
  }

  /** All attempts of a call that was let through: of the first exchange, and of the second when there is one. */
  predicate CallSent(sent: seq<Attempt>, call: Call, access: Option<string>, before: Option<string>,
                     script: seq<Reply>, renewal: Renewal, again: bool)
  {
    var n := Attempts(script, 0);
    && n <= |sent| && ExchangeSent(sent[..n], call, access, before, script, 0)
    && if again then renewal.Renewed? && ExchangeSent(sent[n..], call, renewal.access, renewal.nonce, script, n)
       else |sent| == n
  }

  /**
    NodeConnectionManager.request after its first ensureAccess. From the replies alone: a refused target or a lost
    session sends nothing; otherwise there is one exchange, and a second one exactly when the first ended in a rejected
    token that could be renewed. The result is the last reply unless the session was lost or the renewal failed.
   */
  method Request(client: DpopClient, net: Network, call: Call, access: Option<string>, sameOrigin: bool, renewal: Renewal,
                 now: Currency)
    returns (r: Outcome)
    modifies client, net
    ensures old(net.sent) <= net.sent
    ensures var sent, script := net.sent[|old(net.sent)|..], old(net.script);
            var target, again := LocalRoute(call.route) && sameOrigin, GoesOn(old(net.script), renewal, now);
            && (if now.beforeFirst && target then CallSent(sent, call, access, old(client.nonce), script, renewal, again)
                else sent == [])
            && (r == InvalidTarget <==> now.beforeFirst && now.afterFirst && !target)
            && (r == AccessFailed <==> now.beforeFirst && target && now.afterFirst && TokenRejected(FirstAnswer(script))
                                       && renewal.RenewalFailed?)
            && (r == SessionChanged <==>
                  || !now.beforeFirst || !now.afterFirst
                  || (target && TokenRejected(FirstAnswer(script)) && renewal.Renewed? && !now.afterRenewal)
                  || (target && again && SecondAnswer(script).Json? && !now.afterSecond))
            && (r.Answer? || r.Failed? ==> r == Outcomes(if again then SecondAnswer(script) else FirstAnswer(script)))
  {
    hide SignedExchange, CallSent, NonceChallenge, TokenRejected, LocalRoute;
    ghost var start, before, nonce1 := net.script, net.sent, client.nonce;
    assert before[|before|..] == [];
    if !now.beforeFirst {
      return SessionChanged;
    }
    var first, last := client.Request(net, call, access, sameOrigin);
    ghost var middle, script1 := net.sent, net.script;
    ghost var sent1 := middle[|before|..];
    if LocalRoute(call.route) && sameOrigin {
      OneExchange(sent1, call, access, nonce1, renewal, start, script1, last);
      RejectionsFail(last);
    }
    if !now.afterFirst {
      return SessionChanged;
    }
    if !first.Failed? || !TokenRejected(first.reply) {
      return first;
    }
    if renewal.RenewalFailed? {
      return AccessFailed;
    }
    client.nonce := renewal.nonce;
    if !now.afterRenewal {
      return SessionChanged;
    }
    var second, final := client.Request(net, call, renewal.access, sameOrigin);
    ghost var sent2 := net.sent[|middle|..];
    SuffixOfSuffix(before, middle, net.sent);
    TwoExchanges(sent1, sent2, call, access, nonce1, renewal, start, script1, net.script, last, final);
    if !now.afterSecond && second.Answer? {
      return SessionChanged;
    }
    return second;
  }

  lemma OneExchange(sent: seq<Attempt>, call: Call, access: Option<string>, before: Option<string>, renewal: Renewal,
                    script: seq<Reply>, rest: seq<Reply>, last: Reply)
    requires SignedExchange(sent, call, access, before, script, rest, last)
    ensures CallSent(sent, call, access, before, script, renewal, false) && last == FirstAnswer(script)
    ensures rest == if Attempts(script, 0) == 2 then Rest(Rest(script)) else Rest(script)
  {
    RestIsNth(script);
    assert sent[..|sent|] == sent;
    hide TokenRejected;
  }

  lemma RejectionsFail(r: Reply)
    ensures TokenRejected(r) ==> Outcomes(r) == Failed(r)
  {
  }

  lemma SuffixOfSuffix<T>(a: seq<T>, b: seq<T>, c: seq<T>)
    requires a <= b <= c
    ensures c[|a|..] == b[|a|..] + c[|b|..]
  {
  }

  lemma TwoExchanges(sent1: seq<Attempt>, sent2: seq<Attempt>, call: Call, access: Option<string>, before: Option<string>,
                     renewal: Renewal, script: seq<Reply>, script1: seq<Reply>, script2: seq<Reply>, last: Reply,
                     final: Reply)
    requires SignedExchange(sent1, call, access, before, script, script1, last) && renewal.Renewed?
    requires SignedExchange(sent2, call, renewal.access, renewal.nonce, script1, script2, final)
    ensures CallSent(sent1 + sent2, call, access, before, script, renewal, true) && final == SecondAnswer(script)
  {
    RestIsNth(script);
    OneExchange(sent1, call, access, before, renewal, script, script1, last);
    hide NonceChallenge, TokenRejected;
    assert (sent1 + sent2)[..|sent1|] == sent1 && (sent1 + sent2)[|sent1|..] == sent2;
    assert sent1[..|sent1|] == sent1;
  }

  lemma RestIsNth(script: seq<Reply>)
    ensures Next(script) == Nth(script, 0) && Next(Rest(script)) == Nth(script, 1)
    ensures Next(Rest(Rest(script))) == Nth(script, 2) && Next(Rest(Rest(Rest(script)))) == Nth(script, 3)
  {
  }

  /** Every attempt but the last one of the call was answered by an explicit challenge. */
  predicate OnlyChallengesRepeat(script: seq<Reply>, count: int) {
    forall i :: 0 <= i < count - 1 ==> var r := Nth(script, i); NonceChallenge(r) || TokenRejected(r)
  }

  predicate SameCall(added: seq<Attempt>, call: Call) { forall i :: 0 <= i < |added| ==> added[i].call == call }

  /**
    The attempts of a call are at most four, all of the same method, route, body and key; each repetition follows a
    challenge or a rejected token; and another access token than the first is only sent after a rejection.
   */
  lemma RepetitionsAreJustified(sent: seq<Attempt>, call: Call, access: Option<string>, before: Option<string>,
                                script: seq<Reply>, renewal: Renewal, now: Currency)
    requires CallSent(sent, call, access, before, script, renewal, GoesOn(script, renewal, now))
    ensures |sent| <= 4 && SameCall(sent, call) && OnlyChallengesRepeat(script, |sent|)
    ensures forall i :: 0 <= i < |sent| && sent[i].access != access ==>
              && renewal.Renewed? && sent[i].access == renewal.access
              && exists j :: 0 <= j < i && TokenRejected(Nth(script, j))
  {
    hide NonceChallenge, TokenRejected;
    var n := Attempts(script, 0);
    assert forall i :: 0 <= i < n ==> sent[i] == sent[..n][i];
    assert forall i :: n <= i < |sent| ==> sent[i] == sent[n..][i - n];
  }

  // ---------------------------------------------------------------- the browser's callback

  /** One request to the loopback listener of section 7.3 of RFC 8252. */
  datatype Callback = Callback(get: bool, rightHost: bool, rightPath: bool, parameters: seq<(string, string)>)

  function Lookup(ps: seq<(string, string)>, name: string): Option<string> {
    if ps == [] then None else if ps[0].0 == name then Some(ps[0].1) else Lookup(ps[1..], name)
  }

  predicate NoRepeats(ps: seq<(string, string)>) { forall i, j :: 0 <= i < j < |ps| ==> ps[i].0 != ps[j].0 }

  /** The issuer is checked as section 2 of RFC 9207 asks, the state as section 10.12 of RFC 6749. */
  predicate Acceptable(c: Callback, state: string, issuer: string) {
    && c.get && c.rightHost && c.rightPath
    && Lookup(c.parameters, "state") == Some(state) && Lookup(c.parameters, "iss") == Some(issuer)
    && NoRepeats(c.parameters)
    && var code := Lookup(c.parameters, "code");
       code.Some? && code.value != "" ==> Lookup(c.parameters, "error") == None && |code.value| <= 512
  }

  datatype Authorization = Waiting | Granted(code: string) | Declined

  function Verdict(c: Callback): Authorization {
    var code := Lookup(c.parameters, "code");
    if code.Some? && code.value != "" then Granted(code.value) else Declined
  }

  /** The listener of one sign-in; `cancelled` is the abort signal. */
  class CallbackListener {
    const state: string
    const issuer: string
    var consumed: bool
    var result: Authorization
    var cancelled: bool

    constructor (state: string, issuer: string)
      ensures !consumed && result == Waiting && !cancelled && this.state == state && this.issuer == issuer
    {
      this.state, this.issuer, consumed, result, cancelled := state, issuer, false, Waiting, false;
    }

    /** The code or refusal of the first acceptable callback is the result; everything else is refused with 400. */
    method Receive(c: Callback) returns (status: int)
      requires consumed <==> !result.Waiting?
      modifies this
      ensures consumed <==> !result.Waiting?
      ensures cancelled == old(cancelled)
      ensures if old(result).Waiting? && !cancelled && Acceptable(c, state, issuer)
              then result == Verdict(c) && status == (if result.Granted? then 200 else 400)
              else result == old(result) && status == 400
    {
      if consumed || cancelled || !c.get || !c.rightHost || !c.rightPath
        || Lookup(c.parameters, "state") != Some(state) || Lookup(c.parameters, "iss") != Some(issuer)
        || !NoRepeats(c.parameters)
      {
        return 400;
      }
      var code := Lookup(c.parameters, "code");
      var present := code.Some? && code.value != "";
      if present && (Lookup(c.parameters, "error").Some? || |code.value| > 512) {
        return 400;
      }
      consumed := true;
      if present {
        result := Granted(code.value);
        status := 200;
      } else {
        result := Declined;
        status := 400;
      }
    }

    /** The sign-in is cancelled: callbacks that follow are refused. */
    method Cancel()
      modifies this`cancelled
      ensures cancelled
    {
      cancelled := true;
    }

    /** Whatever arrives in whatever order, at most one callback is consumed: the first acceptable one before an abort. */
    method ReceiveAll(arrivals: seq<Arrival>)
      requires !consumed && result == Waiting && !cancelled
      modifies this
      ensures result == FirstVerdict(arrivals, state, issuer)
    {
      for n := 0 to |arrivals|
        invariant consumed <==> !result.Waiting?
        invariant cancelled <==> Arrival.Abort in arrivals[..n]
        invariant result == FirstVerdict(arrivals[..n], state, issuer)
      {
        assert arrivals[..n + 1] == arrivals[..n] + [arrivals[n]];
        FirstVerdictExtends(arrivals[..n], arrivals[n], state, issuer);
        match arrivals[n]
        case Abort => Cancel();
        case Browser(c) => var status := Receive(c);
      }
      assert arrivals[..|arrivals|] == arrivals;
    }
  }

  datatype Arrival = Browser(callback: Callback) | Abort

  function FirstVerdict(arrivals: seq<Arrival>, state: string, issuer: string): Authorization {
    if arrivals == [] || arrivals[0].Abort? then Waiting
    else if Acceptable(arrivals[0].callback, state, issuer) then Verdict(arrivals[0].callback)
    else FirstVerdict(arrivals[1..], state, issuer)
  }

  lemma {:induction false} FirstVerdictExtends(arrivals: seq<Arrival>, a: Arrival, state: string, issuer: string)
    ensures FirstVerdict(arrivals + [a], state, issuer) ==
            (if !FirstVerdict(arrivals, state, issuer).Waiting? then FirstVerdict(arrivals, state, issuer)
             else if Arrival.Abort !in arrivals && a.Browser? && Acceptable(a.callback, state, issuer) then Verdict(a.callback)
             else Waiting)
  {
    if arrivals != [] {
      FirstVerdictExtends(arrivals[1..], a, state, issuer);
      assert (arrivals + [a])[1..] == arrivals[1..] + [a];
    }
  }

  /**
    A code comes from a callback before any abort: a GET of the listener's own host and path that names the state and
    the issuer of this sign-in, repeats no parameter, carries the code, not longer than 512, and no error.
   */
  lemma {:induction false} GrantedCodeIsBound(arrivals: seq<Arrival>, state: string, issuer: string) returns (i: int)
    requires FirstVerdict(arrivals, state, issuer).Granted?
    ensures 0 <= i < |arrivals| && arrivals[i].Browser? && Arrival.Abort !in arrivals[..i]
    ensures var c := arrivals[i].callback;
            && c.get && c.rightHost && c.rightPath && NoRepeats(c.parameters)
            && Lookup(c.parameters, "state") == Some(state) && Lookup(c.parameters, "iss") == Some(issuer)
            && Lookup(c.parameters, "code") == Some(FirstVerdict(arrivals, state, issuer).code)
            && 0 < |FirstVerdict(arrivals, state, issuer).code| <= 512 && Lookup(c.parameters, "error") == None
  {
    hide Lookup, NoRepeats;
    i := 0;
    if !Acceptable(arrivals[0].callback, state, issuer) {
      i := GrantedCodeIsBound(arrivals[1..], state, issuer);
      i := i + 1;
      assert arrivals[..i] == [arrivals[0]] + arrivals[1..][..i - 1];
    }
  }
}
