/**
 The persistent provider session: a turn sends only the messages the provider
 has not seen on the chain of responses it continues. The provider's answers
 are arbitrary inputs.
 */
module OpenAiSession {
  import opened Prelude
  import opened Conversation

  /** How one request ended. `Ended` is a stream that closed before the response completed. */
  datatype Reply =
    | Completed(id: Option<string>)
    | Ended
    | ApiError(code: Option<string>)
    | Transport

  /** What the network does to one attempt: whether a needed connection succeeds, then the reply. */
  datatype Attempt = Attempt(connects: bool, reply: Reply)

  datatype Outcome = Replied | ConnectFailed | Refused(code: Option<string>) | Broken

  datatype Session = Session(connected: bool, previous: Option<string>, lastLen: nat)

  /** A request as the provider gets it; `asked` is the history of the call that made it. */
  datatype Exchange = Exchange(previous: Option<string>, slice: seq<Message>, reply: Reply, asked: seq<Message>)

  const NEW_SESSION := Session(false, None, 0)

  predicate Recoverable(code: Option<string>) {
    code == Some("previous_response_not_found") || code == Some("websocket_connection_limit_reached")
  }

  /** The first message a request of `ms` carries. */
  function StartIndex(s: Session, ms: seq<Message>): (i: nat)
    ensures i <= |ms|
  {
    if s.previous.None? then 0 else if s.lastLen < |ms| then s.lastLen else |ms|
  }

  function Request(s: Session, ms: seq<Message>, reply: Reply): Exchange {
    Exchange(s.previous, ms[StartIndex(s, ms)..], reply, ms)
  }

  /** The session after a connected request of `ms` got `reply`. */
  function After(s: Session, ms: seq<Message>, reply: Reply, retried: bool): Session {
    match reply
    case Completed(id) => Session(true, id, |ms|)
    case Ended => NEW_SESSION
    case Transport => NEW_SESSION
    case ApiError(code) =>
      if !retried && Recoverable(code)
      then Session(code != Some("websocket_connection_limit_reached"), None, 0)
      else s.(connected := true)
  }

  function OutcomeOf(reply: Reply): Outcome {
    match reply
    case Completed(_) => Replied
    case Ended => Replied
    case Transport => Broken
    case ApiError(code) => Refused(code)
  }

  datatype TurnResult = TurnResult(session: Session, sent: seq<Exchange>, outcome: Outcome)

  /** One attempt of a turn, and the second one when the first was refused recoverably. */
  function Turn(s: Session, ms: seq<Message>, attempts: seq<Attempt>, retried: bool): TurnResult
    requires |attempts| >= 2
    decreases if retried then 0 else 1
  {
    var a := attempts[if retried then 1 else 0];
    if !s.connected && !a.connects then TurnResult(s, [], ConnectFailed)
    else
      var t, x := After(s, ms, a.reply, retried), Request(s, ms, a.reply);
      if a.reply.ApiError? && Recoverable(a.reply.code) && !retried then
        var rest := Turn(t, ms, attempts, true);
        rest.(sent := [x] + rest.sent)
      else TurnResult(t, [x], OutcomeOf(a.reply))
  }

  class OpenAiWsState {
    var connected: bool
    var previous: Option<string>
    var lastLen: nat

    function View(): Session
      reads this
    {
      Session(connected, previous, lastLen)
    }

    constructor ()
      ensures View() == NEW_SESSION
    {
      connected, previous, lastLen := false, None, 0;
    }

    /** Sends the request on the open connection and takes in the reply. */
    method Exchanged(ms: seq<Message>, reply: Reply, retried: bool) returns (x: Exchange)
      requires connected
      modifies this
      ensures x == Request(old(View()), ms, reply) && View() == After(old(View()), ms, reply, retried)
    {
      var start := if previous.None? then 0 else if lastLen < |ms| then lastLen else |ms|;
      x := Exchange(previous, ms[start..], reply, ms);
      match reply {
        case Completed(id) =>
          previous, lastLen := id, |ms|;
        case ApiError(code) =>
          if Recoverable(code) && !retried {
            previous, lastLen := None, 0;
            if code == Some("websocket_connection_limit_reached") {
              connected := false;
            }
          }
        case _ =>
          connected, previous, lastLen := false, None, 0;
      }
    }

    method StreamTurn(ms: seq<Message>, attempts: seq<Attempt>) returns (sent: seq<Exchange>, outcome: Outcome)
      requires |attempts| >= 2
      modifies this
      ensures TurnResult(View(), sent, outcome) == Turn(old(View()), ms, attempts, false)
    {
      var retried := false;
      sent := [];
      while true
        invariant !retried ==> sent == [] && View() == old(View())
        invariant retried ==> |sent| == 1
        invariant retried ==> var rest := Turn(View(), ms, attempts, true);
                              Turn(old(View()), ms, attempts, false) == rest.(sent := [sent[0]] + rest.sent)
        decreases if retried then 0 else 1
      {
        var a := attempts[if retried then 1 else 0];
        if !connected {
          if !a.connects {
            return sent, ConnectFailed;
          }
          connected := true;
        }
        var x := Exchanged(ms, a.reply, retried);
        sent := sent + [x];
        if a.reply.ApiError? && Recoverable(a.reply.code) && !retried {
          retried := true;
        } else {
          return sent, OutcomeOf(a.reply);
        }
      }
    }
  }

  // ── What one turn does ───────────────────────────────────────────────────────

  /** The refusals after which a turn tries once more. */
  predicate Retries(reply: Reply) {
    || reply == ApiError(Some("previous_response_not_found"))
    || reply == ApiError(Some("websocket_connection_limit_reached"))
  }

  /**
   A turn makes at most two requests: a first one if it is connected or connects,
   and a second one exactly after a refusal because the previous response was not
   found, or for too many connections, if it then connects again. The second one
   continues no response and carries the whole history.
   */
  lemma {:induction false} TwoAttempts(s: Session, ms: seq<Message>, attempts: seq<Attempt>)
    requires |attempts| >= 2
    ensures var sent := Turn(s, ms, attempts, false).sent;
            && |sent| <= 2
            && (sent != [] <==> s.connected || attempts[0].connects)
            && (forall k :: 0 <= k < |sent| ==> sent[k].asked == ms && sent[k].reply == attempts[k].reply)
            && (|sent| == 2 <==>
                  && sent != [] && Retries(sent[0].reply)
                  && (sent[0].reply == ApiError(Some("previous_response_not_found")) || attempts[1].connects))
            && (|sent| == 2 ==> sent[1].previous == None && sent[1].slice == ms)
  {
    var a := attempts[0];
    if (s.connected || a.connects) && a.reply.ApiError? && Recoverable(a.reply.code) {
      var t, x := After(s, ms, a.reply, false), Request(s, ms, a.reply);
      var rest := Turn(t, ms, attempts, true).sent;
      assert rest == if t.connected || attempts[1].connects then [Request(t, ms, attempts[1].reply)] else [];
      assert Turn(s, ms, attempts, false).sent == [x] + rest;
    }
  }

  /** What a turn returns: the last reply, or that the connection failed. */
  lemma {:induction false} TurnReturns(s: Session, ms: seq<Message>, attempts: seq<Attempt>)
    requires |attempts| >= 2
    ensures var r := Turn(s, ms, attempts, false);
            if r.sent == [] || (|r.sent| == 1 && Retries(r.sent[0].reply)) then r.outcome == ConnectFailed
            else
              match r.sent[|r.sent| - 1].reply
              case Completed(_) => r.outcome == Replied
              case Ended => r.outcome == Replied
              case ApiError(code) => r.outcome == Refused(code)
              case Transport => r.outcome == Broken
  {
    var a := attempts[0];
    if (s.connected || a.connects) && a.reply.ApiError? && Recoverable(a.reply.code) {
      var t := After(s, ms, a.reply, false);
      var rest, x := Turn(t, ms, attempts, true), Request(s, ms, a.reply);
      assert rest.sent == [] || rest.sent == [Request(t, ms, attempts[1].reply)];
      assert ([x] + rest.sent)[|rest.sent|] == if rest.sent == [] then x else rest.sent[0];
    }
  }

  /** A turn remembers a response exactly when its last request completed with that id, or it was kept on refusal. */
  lemma {:induction false} RememberedResponse(s: Session, ms: seq<Message>, attempts: seq<Attempt>, id: string)
    requires |attempts| >= 2
    ensures var r := Turn(s, ms, attempts, false);
            r.session.previous == Some(id) <==>
              if r.sent == [] then s.previous == Some(id)
              else
                var last := r.sent[|r.sent| - 1].reply;
                || last == Completed(Some(id))
                || (last.ApiError? && !Retries(last) && |r.sent| == 1 && s.previous == Some(id))
  {
    var a := attempts[0];
    if (s.connected || a.connects) && a.reply.ApiError? && Recoverable(a.reply.code) {
      var t := After(s, ms, a.reply, false);
      var rest := Turn(t, ms, attempts, true);
      var x := Request(s, ms, a.reply);
      assert rest.sent == [] || rest.sent == [Request(t, ms, attempts[1].reply)];
      assert ([x] + rest.sent)[|rest.sent|] == if rest.sent == [] then x else rest.sent[0];
    }
  }

  /** The connection survives a turn exactly when its last request completed or was refused for good. */
  lemma {:induction false} ConnectionKept(s: Session, ms: seq<Message>, attempts: seq<Attempt>)
    requires |attempts| >= 2
    ensures var r := Turn(s, ms, attempts, false);
            r.session.connected <==> (r.outcome.Refused? || (r.sent != [] && r.sent[|r.sent| - 1].reply.Completed?))
  {
    var a := attempts[0];
    if (s.connected || a.connects) && a.reply.ApiError? && Recoverable(a.reply.code) {
      var t := After(s, ms, a.reply, false);
      var rest, x := Turn(t, ms, attempts, true), Request(s, ms, a.reply);
      assert rest.sent == [] || rest.sent == [Request(t, ms, attempts[1].reply)];
      assert ([x] + rest.sent)[|rest.sent|] == if rest.sent == [] then x else rest.sent[0];
    }
  }

  // ── What the provider has ────────────────────────────────────────────────────

  /** The messages sent on the chain of completed responses that leads to `id`. */
  function Chain(log: seq<Exchange>, id: string): seq<Message>
    decreases |log|, 0
  {
    if log == [] then []
    else
      var front, last := log[..|log| - 1], log[|log| - 1];
      if last.reply == Completed(Some(id)) then ChainTo(front, last.previous) + last.slice
      else Chain(front, id)
  }

  function ChainTo(log: seq<Exchange>, previous: Option<string>): seq<Message>
    decreases |log|, 1
  {
    if previous.None? then [] else Chain(log, previous.value)
  }

  /** The history of the call that response `id` answered. */
  function Answered(log: seq<Exchange>, id: string): seq<Message> {
    if log == [] then []
    else
      var last := log[|log| - 1];
      if last.reply == Completed(Some(id)) then last.asked else Answered(log[..|log| - 1], id)
  }

  /** A request together with the chain it continues is the whole history of its call. */
  predicate Whole(log: seq<Exchange>, x: Exchange) {
    ChainTo(log, x.previous) + x.slice == x.asked
  }

  predicate AllWhole(log: seq<Exchange>) {
    log != [] ==>
      AllWhole(log[..|log| - 1]) && Whole(log[..|log| - 1], log[|log| - 1])
  }

  /** A request continues a response only with a history that extends the one answered. */
  predicate Extends(log: seq<Exchange>, x: Exchange) {
    x.previous.Some? ==> Answered(log, x.previous.value) <= x.asked
  }

  predicate AllExtend(log: seq<Exchange>) {
    log != [] ==>
      AllExtend(log[..|log| - 1]) && Extends(log[..|log| - 1], log[|log| - 1])
  }

  lemma {:induction false} AllWholeMeans(log: seq<Exchange>, i: nat)
    requires AllWhole(log) && i < |log|
    ensures Whole(log[..i], log[i])
  {
    var n := |log| - 1;
    if i < n {
      AllWholeMeans(log[..n], i);
      assert log[..n][..i] == log[..i];
    }
  }

  /** While every request was whole, the chain to a response is the history it answered. */
  lemma {:induction false} ChainIsAnswered(log: seq<Exchange>, id: string)
    requires AllWhole(log)
    ensures Chain(log, id) == Answered(log, id)
  {
    if log != [] {
      ChainIsAnswered(log[..|log| - 1], id);
    }
  }

  /** The session remembers how long the history was that its response answered. */
  predicate Tracks(s: Session, log: seq<Exchange>) {
    s.previous.Some? ==> s.lastLen == |Answered(log, s.previous.value)|
  }

  lemma {:induction false} LogSnoc(log: seq<Exchange>, x: Exchange)
    ensures AllWhole(log + [x]) <==> AllWhole(log) && Whole(log, x)
    ensures AllExtend(log + [x]) <==> AllExtend(log) && Extends(log, x)
    ensures forall id :: Answered(log + [x], id)
              == if x.reply == Completed(Some(id)) then x.asked else Answered(log, id)
  {
    assert (log + [x])[..|log|] == log;
  }

  lemma {:induction false} PrefixSplit(a: seq<Message>, ms: seq<Message>)
    ensures a + ms[if |a| < |ms| then |a| else |ms|..] == ms <==> a <= ms
  {
  }

  /** The request a session makes is whole exactly when the history extends the answered one. */
  lemma {:induction false} RequestWhole(s: Session, log: seq<Exchange>, ms: seq<Message>, reply: Reply)
    requires Tracks(s, log) && AllWhole(log)
    ensures Whole(log, Request(s, ms, reply)) <==> Extends(log, Request(s, ms, reply))
  {
    if s.previous.Some? {
      ChainIsAnswered(log, s.previous.value);
      PrefixSplit(Chain(log, s.previous.value), ms);
    }
  }

  lemma {:induction false} AttemptKeeps(s: Session, log: seq<Exchange>, ms: seq<Message>, reply: Reply, retried: bool)
    requires Tracks(s, log) && (AllWhole(log) <==> AllExtend(log))
    ensures var grown := log + [Request(s, ms, reply)];
            && Tracks(After(s, ms, reply, retried), grown)
            && (AllWhole(grown) <==> AllExtend(grown))
  {
    LogSnoc(log, Request(s, ms, reply));
    if AllWhole(log) {
      RequestWhole(s, log, ms, reply);
    }
  }

  lemma {:induction false} TurnKeeps(s: Session, log: seq<Exchange>, ms: seq<Message>, attempts: seq<Attempt>,
                                     retried: bool)
    requires |attempts| >= 2
    requires Tracks(s, log) && (AllWhole(log) <==> AllExtend(log))
    ensures var r := Turn(s, ms, attempts, retried);
            Tracks(r.session, log + r.sent) && (AllWhole(log + r.sent) <==> AllExtend(log + r.sent))
    decreases if retried then 0 else 1
  {
    var a := attempts[if retried then 1 else 0];
    if !s.connected && !a.connects {
      assert log + [] == log;
    } else {
      var t, x := After(s, ms, a.reply, retried), Request(s, ms, a.reply);
      AttemptKeeps(s, log, ms, a.reply, retried);
      if a.reply.ApiError? && Recoverable(a.reply.code) && !retried {
        TurnKeeps(t, log + [x], ms, attempts, true);
        Assoc(log, [x], Turn(t, ms, attempts, true).sent);
      }
    }
  }

  // ── Whole runs ───────────────────────────────────────────────────────────────

  /** A call of the session: the history it was given and what the network does. */
  datatype Call = Call(messages: seq<Message>, attempts: seq<Attempt>)

  predicate Calls(calls: seq<Call>) {
    forall c :: c in calls ==> |c.attempts| >= 2
  }

  datatype Trace = Trace(session: Session, log: seq<Exchange>)

  function Run(calls: seq<Call>): Trace
    requires Calls(calls)
  {
    if calls == [] then Trace(NEW_SESSION, [])
    else
      var so, last := Run(calls[..|calls| - 1]), calls[|calls| - 1];
      var r := Turn(so.session, last.messages, last.attempts, false);
      Trace(r.session, so.log + r.sent)
  }

  /**
   Over every run of completed, incomplete, refused, recovered and broken turns:
   every request was whole exactly when every request that continued a response
   had a history extending the one that response answered.
   */
  lemma {:induction false} RunWholeExactly(calls: seq<Call>)
    requires Calls(calls)
    ensures AllWhole(Run(calls).log) <==> AllExtend(Run(calls).log)
    ensures Tracks(Run(calls).session, Run(calls).log)
  {
    if calls != [] {
      var front, last := calls[..|calls| - 1], calls[|calls| - 1];
      RunWholeExactly(front);
      TurnKeeps(Run(front).session, Run(front).log, last.messages, last.attempts, false);
    }
  }

  predicate AppendOnly(calls: seq<Call>) {
    calls != [] ==>
      var front, last := calls[..|calls| - 1], calls[|calls| - 1];
      AppendOnly(front) && (front != [] ==> front[|front| - 1].messages <= last.messages)
  }

  predicate AskedUpTo(log: seq<Exchange>, ms: seq<Message>) {
    forall x :: x in log ==> x.asked <= ms
  }

  lemma {:induction false} AnsweredUpTo(log: seq<Exchange>, id: string, ms: seq<Message>)
    requires AskedUpTo(log, ms)
    ensures Answered(log, id) <= ms
  {
    if log != [] {
      assert log[|log| - 1] in log;
      AnsweredUpTo(log[..|log| - 1], id, ms);
    }
  }

  lemma {:induction false} AppendedRequestExtends(log: seq<Exchange>, x: Exchange, ms: seq<Message>)
    requires AllExtend(log) && AskedUpTo(log, ms) && x.asked == ms
    ensures AllExtend(log + [x]) && AskedUpTo(log + [x], ms)
  {
    LogSnoc(log, x);
    if x.previous.Some? {
      AnsweredUpTo(log, x.previous.value, ms);
    }
  }

  lemma {:induction false} AppendedTurnExtends(log: seq<Exchange>, sent: seq<Exchange>, ms: seq<Message>)
    requires AllExtend(log) && AskedUpTo(log, ms) && forall x :: x in sent ==> x.asked == ms
    ensures AllExtend(log + sent) && AskedUpTo(log + sent, ms)
  {
    if sent == [] {
      assert log + sent == log;
    } else {
      var n := |sent| - 1;
      AppendedTurnExtends(log, sent[..n], ms);
      AppendedRequestExtends(log + sent[..n], sent[n], ms);
      assert log + sent == log + sent[..n] + [sent[n]];
    }
  }

  lemma {:induction false} AppendOnlyExtends(calls: seq<Call>)
    requires Calls(calls) && AppendOnly(calls)
    ensures AllExtend(Run(calls).log)
    ensures AskedUpTo(Run(calls).log, if calls == [] then [] else calls[|calls| - 1].messages)
  {
    if calls != [] {
      var front, last := calls[..|calls| - 1], calls[|calls| - 1];
      AppendOnlyExtends(front);
      TwoAttempts(Run(front).session, last.messages, last.attempts);
      assert AskedUpTo(Run(front).log, last.messages);
      AppendedTurnExtends(Run(front).log,
                          Turn(Run(front).session, last.messages, last.attempts, false).sent, last.messages);
    }
  }

  /**
   With an append-only history no message is skipped or sent twice on a chain:
   each request completes its chain to the whole history of its call, and the
   chain to the remembered response is the history's prefix of the remembered length.
   */
  lemma {:induction false} AppendOnlyRunsAreWhole(calls: seq<Call>)
    requires Calls(calls) && AppendOnly(calls) && calls != []
    ensures AllWhole(Run(calls).log)
    ensures var s, ms := Run(calls).session, calls[|calls| - 1].messages;
            s.previous.Some? ==>
              s.lastLen <= |ms| && Chain(Run(calls).log, s.previous.value) == ms[..s.lastLen]
  {
    RunWholeExactly(calls);
    AppendOnlyExtends(calls);
    var s, log := Run(calls).session, Run(calls).log;
    if s.previous.Some? {
      ChainIsAnswered(log, s.previous.value);
      AnsweredUpTo(log, s.previous.value, calls[|calls| - 1].messages);
    }
  }
}
