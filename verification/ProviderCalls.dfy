/**
 What a whole run of the agent loop sends to a provider: the histories of its
 model calls, as the Anthropic wire shows them and as the persistent OpenAI
 session cuts them.
 */
module ProviderCalls {
  import opened Conversation
  import opened AgentLoop
  import opened AgentLoopProofs
  import opened AnthropicWire
  import OpenAiSession

  /** The histories the model is asked with, turn by turn. */
  function Histories(w: World, c: Config, turn: nat, s: LoopState): seq<seq<Message>>
    decreases c.maxTurns - turn
  {
    if turn >= c.maxTurns then []
    else
      var end := RunTurn(w, c, turn, s);
      [TurnHead(w, c, turn, s).messages] +
      (if end.Going? then Histories(w, c, turn + 1, end.state) else [])
  }

  /** Paired histories, the first extending `base` and each extending the one before. */
  predicate GrowPaired(base: seq<Message>, hs: seq<seq<Message>>) {
    && (forall i :: 0 <= i < |hs| ==> Paired(hs[i]))
    && (forall i :: 0 <= i < |hs| - 1 ==> hs[i] <= hs[i + 1])
    && (hs != [] ==> base <= hs[0])
  }

  lemma {:induction false} GrowCons(base: seq<Message>, h: seq<Message>, tail: seq<seq<Message>>)
    requires base <= h && Paired(h) && GrowPaired(h, tail)
    ensures GrowPaired(base, [h] + tail)
  {
  }

  lemma {:induction false} GrowFrom(base: seq<Message>, later: seq<Message>, hs: seq<seq<Message>>)
    requires base <= later && GrowPaired(later, hs)
    ensures GrowPaired(base, hs)
  {
  }

  /** Every model call of a run gets a paired history that extends the one of the call before. */
  lemma {:induction false} HistoriesGrowPaired(w: World, c: Config, turn: nat, s: LoopState)
    requires Paired(s.messages)
    ensures GrowPaired(s.messages, Histories(w, c, turn, s))
    decreases c.maxTurns - turn
  {
    if turn < c.maxTurns {
      HeadKeeps(w, c, turn, s);
      TurnKeepsPaired(w, c, turn, s);
      var h, end := TurnHead(w, c, turn, s).messages, RunTurn(w, c, turn, s);
      if end.Going? {
        HistoriesGrowPaired(w, c, turn + 1, end.state);
        var tail := Histories(w, c, turn + 1, end.state);
        GrowFrom(h, end.state.messages, tail);
        GrowCons(s.messages, h, tail);
      }
    }
  }

  /**
   In every request a run makes, each message that uses tools is followed by a
   user message whose leading blocks are the results of those uses, in order,
   and no two neighbours have the same role.
   */
  lemma {:induction false} EveryRequestIsAnswered(
      w: World, c: Config, turn: nat, messages: seq<Message>, caching: bool, i: nat, k: nat)
    requires Paired(messages) && i < |Histories(w, c, turn, Start(messages))|
    ensures var out := Wire(Histories(w, c, turn, Start(messages))[i], caching);
            && Alternates(out)
            && (k < |out| && UseIds(BlocksOf(out[k].content)) != [] ==>
                  && k + 1 < |out| && out[k + 1].role == UserRole
                  && LeadingResults(BlocksOf(out[k + 1].content), UseIds(BlocksOf(out[k].content))))
  {
    HistoriesGrowPaired(w, c, turn, Start(messages));
    var h := Histories(w, c, turn, Start(messages))[i];
    WireAlternates(h, caching);
    if k < |Wire(h, caching)| && UseIds(BlocksOf(Wire(h, caching)[k].content)) != [] {
      PairedWireIsAnswered(h, caching, k);
    }
  }

  /** `calls` are a run's model calls over one session, whatever the network does. */
  predicate CallsOf(calls: seq<OpenAiSession.Call>, hs: seq<seq<Message>>) {
    |calls| == |hs| && forall i :: 0 <= i < |hs| ==> calls[i].messages == hs[i] && |calls[i].attempts| >= 2
  }

  lemma {:induction false} GrowingCallsAppend(calls: seq<OpenAiSession.Call>)
    requires forall i :: 0 <= i < |calls| - 1 ==> calls[i].messages <= calls[i + 1].messages
    ensures OpenAiSession.AppendOnly(calls)
  {
    if |calls| > 1 {
      var front := calls[..|calls| - 1];
      GrowingCallsAppend(front);
      assert front[|front| - 1] == calls[|calls| - 2];
    }
  }

  /** A run's session skips and repeats no message: each request completes its chain to the call's history. */
  lemma {:induction false} RunsSendWholeHistories(w: World, c: Config, turn: nat, messages: seq<Message>,
                                                  calls: seq<OpenAiSession.Call>)
    requires Paired(messages) && CallsOf(calls, Histories(w, c, turn, Start(messages)))
    ensures OpenAiSession.AllWhole(OpenAiSession.Run(calls).log)
  {
    HistoriesGrowPaired(w, c, turn, Start(messages));
    GrowingCallsAppend(calls);
    if calls != [] {
      OpenAiSession.AppendOnlyRunsAreWhole(calls);
    }
  }
}
