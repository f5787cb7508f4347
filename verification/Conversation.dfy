/** The conversation history and the grammar providers demand of it. */
module Conversation {
  datatype Image = Image(data: seq<bv8>, mime: string)

  datatype ToolCall = ToolCall(callId: string, name: string, args: string)

  datatype Message =
    | User(content: string, images: seq<Image>)
    | Assistant(content: string, calls: seq<ToolCall>)
    | Tool(callId: string, name: string, content: string, images: seq<Image>)

  /** `ms` starts with one tool message per call, carrying the call's id, in order. */
  predicate StartsWithAnswers(ms: seq<Message>, calls: seq<ToolCall>): (r: bool)
    ensures r ==> |calls| <= |ms|
  {
    calls != [] ==>
      && ms != [] && ms[0].Tool? && ms[0].callId == calls[0].callId
      && StartsWithAnswers(ms[1..], calls[1..])
  }

  lemma {:induction false} StartsWithAnswersMeans(ms: seq<Message>, calls: seq<ToolCall>)
    ensures StartsWithAnswers(ms, calls) <==>
      && |calls| <= |ms|
      && forall i :: 0 <= i < |calls| ==> ms[i].Tool? && ms[i].callId == calls[i].callId
  {
    if calls != [] && ms != [] {
      StartsWithAnswersMeans(ms[1..], calls[1..]);
      assert forall i :: 0 < i < |calls| ==> calls[i] == calls[1..][i - 1];
      assert forall i :: 0 < i < |ms| ==> ms[i] == ms[1..][i - 1];
    }
  }

  /**
   Every assistant message is followed at once by exactly one tool message for
   each of its calls, in order, and no tool message stands anywhere else.
   */
  predicate Paired(ms: seq<Message>) {
    ms == [] ||
    match ms[0]
    case User(_, _) => Paired(ms[1..])
    case Assistant(_, calls) => StartsWithAnswers(ms[1..], calls) && Paired(ms[1..][|calls|..])
    case Tool(_, _, _, _) => false
  }

  lemma {:induction false} AnswersExtend(ms: seq<Message>, calls: seq<ToolCall>, more: seq<Message>)
    requires StartsWithAnswers(ms, calls)
    ensures StartsWithAnswers(ms + more, calls)
  {
    if calls != [] {
      AnswersExtend(ms[1..], calls[1..], more);
      assert (ms + more)[1..] == ms[1..] + more;
    }
  }

  lemma {:induction false} PairedConcat(a: seq<Message>, b: seq<Message>)
    requires Paired(a) && Paired(b)
    ensures Paired(a + b)
  {
    if a == [] {
      assert a + b == b;
    } else {
      var tail := a[1..];
      assert (a + b)[1..] == tail + b;
      if a[0].User? {
        PairedConcat(tail, b);
      } else {
        var n := |a[0].calls|;
        AnswersExtend(tail, a[0].calls, b);
        assert (tail + b)[n..] == tail[n..] + b;
        PairedConcat(tail[n..], b);
      }
    }
  }

  lemma {:induction false} PairedUser(ms: seq<Message>, m: Message)
    requires Paired(ms) && m.User?
    ensures Paired(ms + [m])
  {
    assert [m][1..] == [];
    PairedConcat(ms, [m]);
  }

  lemma {:induction false} PairedTurn(ms: seq<Message>, m: Message, answers: seq<Message>)
    requires Paired(ms) && m.Assistant? && StartsWithAnswers(answers, m.calls) && |answers| == |m.calls|
    ensures Paired(ms + [m] + answers)
  {
    var turn := [m] + answers;
    assert turn[1..] == answers && answers[|m.calls|..] == [];
    PairedConcat(ms, turn);
    assert ms + turn == ms + [m] + answers;
  }

  /** Assistant messages after the last user message (after the start when there is none). */
  function TurnsConsumed(ms: seq<Message>): nat {
    if ms == [] then 0
    else
      match ms[|ms| - 1]
      case User(_, _) => 0
      case Assistant(_, _) => TurnsConsumed(ms[..|ms| - 1]) + 1
      case Tool(_, _, _, _) => TurnsConsumed(ms[..|ms| - 1])
  }

  lemma {:induction false} ConsumedSnoc(ms: seq<Message>, m: Message)
    ensures TurnsConsumed(ms + [m]) == if m.User? then 0 else TurnsConsumed(ms) + (if m.Assistant? then 1 else 0)
  {
    assert (ms + [m])[..|ms|] == ms;
  }

  lemma {:induction false} ConsumedTools(ms: seq<Message>, tools: seq<Message>)
    requires forall i :: 0 <= i < |tools| ==> tools[i].Tool?
    ensures TurnsConsumed(ms + tools) == TurnsConsumed(ms)
  {
    if tools == [] {
      assert ms + tools == ms;
    } else {
      var n := |tools| - 1;
      ConsumedTools(ms, tools[..n]);
      ConsumedSnoc(ms + tools[..n], tools[n]);
      assert ms + tools[..n] + [tools[n]] == ms + tools;
    }
  }
}
