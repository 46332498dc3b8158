/**
 * The response join of GSM_Base.js: a request goes to both AIs, each AI's
 * response is stored in its own slot, and the derived state's handler runs
 * once both slots are filled.
 *
 * The wire format is a string; D is the type the derived state decodes a
 * response into, and `parse` stands for JSON.parse (None where it throws).
 * Clock readings are passed in as `now`.
 */
module ResponseJoin {
  import opened Wrappers

  datatype AiId = AI1 | AI2

  function Other(ai: AiId): AiId
  {
    if ai == AI1 then AI2 else AI1
  }

  /** An AI's response: its raw text, its decoded data once parsed, and how long it took. */
  datatype AIResponse<D> = AIResponse(jsonData: string, data: Option<D>, processingTimeSeconds: real)

  /**
   * Everything the join reads and writes: the two response slots, the time
   * the request went out, both AIs' running processing totals, what each AI
   * has been sent, and the pairs of responses the handler has been called with.
   */
  datatype JoinState<D> = JoinState(
    aiResponses: map<AiId, AIResponse<D>>,
    updateSentTime: real,
    processingTime1: real,
    processingTime2: real,
    sent1: seq<string>,
    sent2: seq<string>,
    handled: seq<(AIResponse<D>, AIResponse<D>)>)

  datatype CheckOutcome = Waiting | Handled | ParseFailed(ai: AiId)

  datatype Checked<D> = Checked(state: JoinState<D>, outcome: CheckOutcome)

  /** GSM_Base.sendRequestToBothAIs, given the request already serialised. */
  function AfterSend<D>(s: JoinState<D>, jsonRequest: string, now: real): (t: JoinState<D>)
    ensures |t.sent1| == |s.sent1| + 1 && t.sent1[..|s.sent1|] == s.sent1
    ensures |t.sent2| == |s.sent2| + 1 && t.sent2[..|s.sent2|] == s.sent2
    ensures t.handled == s.handled
    ensures t.processingTime1 == s.processingTime1 && t.processingTime2 == s.processingTime2
  {
    s.(aiResponses := map[], updateSentTime := now, sent1 := s.sent1 + [jsonRequest], sent2 := s.sent2 + [jsonRequest])
  }

  /** GSM_Base._getAIResponse: a response stamped with the time since the request went out. */
  function NewResponse<D>(s: JoinState<D>, jsonData: string, now: real): (r: AIResponse<D>)
    ensures r.jsonData == jsonData && r.data.None?
    ensures r.processingTimeSeconds + s.updateSentTime == now
    ensures now >= s.updateSentTime ==> r.processingTimeSeconds >= 0.0
  {
    AIResponse(jsonData, None, now - s.updateSentTime)
  }

  /** The store step of onResponse_AI1 / onResponse_AI2: fill the responding AI's slot. */
  function Store<D>(s: JoinState<D>, ai: AiId, jsonData: string, now: real): (t: JoinState<D>)
    ensures t.aiResponses.Keys == s.aiResponses.Keys + {ai}
    ensures t.aiResponses[ai] == NewResponse(s, jsonData, now)
    ensures Other(ai) in s.aiResponses ==> t.aiResponses[Other(ai)] == s.aiResponses[Other(ai)]
    ensures t == s.(aiResponses := t.aiResponses)
  {
    s.(aiResponses := s.aiResponses[ai := NewResponse(s, jsonData, now)])
  }

  /**
   * GSM_Base._checkResponses. The handler runs, and the totals grow, only
   * when both slots are filled and both parse; each total grows by its own
   * AI's time.
   */
  function Check<D>(s: JoinState<D>, parse: string -> Option<D>): (c: Checked<D>)
    ensures c.outcome.Handled? <==>
              AI1 in s.aiResponses && AI2 in s.aiResponses &&
              parse(s.aiResponses[AI1].jsonData).Some? && parse(s.aiResponses[AI2].jsonData).Some?
    ensures (AI1 !in s.aiResponses || AI2 !in s.aiResponses) ==> c == Checked(s, Waiting)
    ensures !c.outcome.Handled? ==>
              c.state.handled == s.handled &&
              c.state.processingTime1 == s.processingTime1 && c.state.processingTime2 == s.processingTime2
    ensures c.outcome.Handled? ==>
              var r1 := s.aiResponses[AI1];
              var r2 := s.aiResponses[AI2];
              && c.state.processingTime1 == s.processingTime1 + r1.processingTimeSeconds
              && c.state.processingTime2 == s.processingTime2 + r2.processingTimeSeconds
              && c.state.handled == s.handled + [(r1.(data := parse(r1.jsonData)), r2.(data := parse(r2.jsonData)))]
              && c.state.aiResponses == map[AI1 := c.state.handled[|s.handled|].0, AI2 := c.state.handled[|s.handled|].1]
    ensures c.state.aiResponses.Keys == s.aiResponses.Keys
    ensures c.state.sent1 == s.sent1 && c.state.sent2 == s.sent2 && c.state.updateSentTime == s.updateSentTime
  {
    if AI1 !in s.aiResponses || AI2 !in s.aiResponses then
      Checked(s, Waiting)
    else
      var response1 := s.aiResponses[AI1];
      var response2 := s.aiResponses[AI2];
      var data1 := parse(response1.jsonData);
      if data1.None? then
        Checked(s, ParseFailed(AI1))
      else
        var parsed1 := response1.(data := data1);
        var s1 := s.(aiResponses := s.aiResponses[AI1 := parsed1]);
        var data2 := parse(response2.jsonData);
        if data2.None? then
          Checked(s1, ParseFailed(AI2))
        else
          var parsed2 := response2.(data := data2);
          var responses := s1.aiResponses[AI2 := parsed2];
          assert responses == map[AI1 := parsed1, AI2 := parsed2] by {
            assert responses.Keys == {AI1, AI2} by {
              forall ai: AiId ensures ai in responses.Keys <==> ai in {AI1, AI2} {
                assert ai == AI1 || ai == AI2;
              }
            }
          }
          Checked(s1.(aiResponses := responses,
                      processingTime1 := s.processingTime1 + response1.processingTimeSeconds,
                      processingTime2 := s.processingTime2 + response2.processingTimeSeconds,
                      handled := s.handled + [(parsed1, parsed2)]),
                  Handled)
  }

  /** onResponse_AI1 (ai == AI1) and onResponse_AI2 (ai == AI2). */
  function OnResponse<D>(s: JoinState<D>, ai: AiId, jsonData: string, now: real, parse: string -> Option<D>): (c: Checked<D>)
    ensures Other(ai) !in s.aiResponses ==>
              c.outcome == Waiting && c.state.handled == s.handled && ai in c.state.aiResponses && Other(ai) !in c.state.aiResponses
    ensures c.state.aiResponses.Keys == s.aiResponses.Keys + {ai}
    ensures c.state.sent1 == s.sent1 && c.state.sent2 == s.sent2 && c.state.updateSentTime == s.updateSentTime
    ensures |s.handled| <= |c.state.handled| <= |s.handled| + 1 && c.state.handled[..|s.handled|] == s.handled
  {
    Check(Store(s, ai, jsonData, now), parse)
  }

  /** A send empties both slots and hands the same text to both AIs. */
  lemma SendClearsAndSendsSame<D>(s: JoinState<D>, jsonRequest: string, now: real)
    ensures var t := AfterSend(s, jsonRequest, now);
      && t.aiResponses == map[]
      && t.sent1[|t.sent1| - 1] == t.sent2[|t.sent2| - 1] == jsonRequest
      && t.sent1[..|s.sent1|] == s.sent1 && t.sent2[..|s.sent2|] == s.sent2
      && t.handled == s.handled
  {
  }

  /**
   * One response from each AI after a send, in either order: the first
   * leaves the handler unfired; the second fires it exactly once, with both
   * decoded responses and each AI's own time added to its own total.
   */
  lemma FiresOnceOnSecondResponse<D>(s: JoinState<D>, jsonRequest: string, sentAt: real, first: AiId,
                                     json1: string, at1: real, json2: string, at2: real,
                                     parse: string -> Option<D>)
    requires parse(json1).Some? && parse(json2).Some?
    requires sentAt <= at1 && sentAt <= at2
    ensures var t := AfterSend(s, jsonRequest, sentAt);
      var jsonFirst := if first == AI1 then json1 else json2;
      var atFirst := if first == AI1 then at1 else at2;
      var jsonSecond := if first == AI1 then json2 else json1;
      var atSecond := if first == AI1 then at2 else at1;
      var c1 := OnResponse(t, first, jsonFirst, atFirst, parse);
      var c2 := OnResponse(c1.state, Other(first), jsonSecond, atSecond, parse);
      && c1.outcome == Waiting
      && c1.state.handled == s.handled
      && c2.outcome == Handled
      && c2.state.handled == s.handled + [(AIResponse(json1, parse(json1), at1 - sentAt), AIResponse(json2, parse(json2), at2 - sentAt))]
      && c2.state.processingTime1 == s.processingTime1 + (at1 - sentAt)
      && c2.state.processingTime2 == s.processingTime2 + (at2 - sentAt)
      && c2.state.processingTime1 >= s.processingTime1
      && c2.state.processingTime2 >= s.processingTime2
  {

  }

  /** After a send, the state once both AIs have answered does not depend on who answered first. */
  lemma OrderIndependent<D>(s: JoinState<D>, json1: string, at1: real, json2: string, at2: real,
                            parse: string -> Option<D>)
    requires s.aiResponses == map[]
    ensures OnResponse(OnResponse(s, AI1, json1, at1, parse).state, AI2, json2, at2, parse)
         == OnResponse(OnResponse(s, AI2, json2, at2, parse).state, AI1, json1, at1, parse)
  {
    var a := Store(s, AI1, json1, at1);
    var b := Store(s, AI2, json2, at2);
    assert a.aiResponses.Keys == {AI1};
    assert b.aiResponses.Keys == {AI2};
    var ab := Store(Check(a, parse).state, AI2, json2, at2);
    var ba := Store(Check(b, parse).state, AI1, json1, at1);
    assert ab == ba by {
      assert ab.aiResponses.Keys == ba.aiResponses.Keys == {AI1, AI2};
      assert ab.aiResponses[AI1] == ba.aiResponses[AI1];
      assert ab.aiResponses[AI2] == ba.aiResponses[AI2];
    }
  }

  /**
   * The join is not guarded against a repeated response: once both slots
   * are filled, another response from either AI fires the handler again and
   * adds the other AI's stored time to its total a second time.
   */
  lemma RepeatedResponseFiresAgain<D>(s: JoinState<D>, ai: AiId, jsonData: string, now: real, parse: string -> Option<D>)
    requires AI1 in s.aiResponses && AI2 in s.aiResponses
    requires parse(jsonData).Some? && parse(s.aiResponses[Other(ai)].jsonData).Some?
    ensures var c := OnResponse(s, ai, jsonData, now, parse);
      && c.outcome == Handled
      && |c.state.handled| == |s.handled| + 1
      && (ai == AI1 ==> c.state.processingTime2 == s.processingTime2 + s.aiResponses[AI2].processingTimeSeconds)
      && (ai == AI2 ==> c.state.processingTime1 == s.processingTime1 + s.aiResponses[AI1].processingTimeSeconds)
  {

  }

  /** An event the join is driven by: a request sent, or a response from one AI. */
  datatype Event = Send(jsonRequest: string, now: real) | Response(ai: AiId, jsonData: string, now: real)

  /** The join state after a sequence of events, one callback at a time. */
  function Replay<D>(s: JoinState<D>, events: seq<Event>, parse: string -> Option<D>): (t: JoinState<D>)
    ensures |s.handled| <= |t.handled| <= |s.handled| + |events|
    ensures t.handled[..|s.handled|] == s.handled
    decreases |events|
  {
    if |events| == 0 then s
    else
      var next := match events[0]
        case Send(jsonRequest, now) => AfterSend(s, jsonRequest, now)
        case Response(ai, jsonData, now) => OnResponse(s, ai, jsonData, now, parse).state;
      Replay(next, events[1..], parse)
  }

  /**
   * The handler never fires before both AIs have responded: however many
   * responses one AI sends while the other's slot is empty, the handler is
   * not called, the totals do not move, and the other slot stays empty.
   */
  lemma {:induction false} NeverBeforeBoth<D>(s: JoinState<D>, ai: AiId, events: seq<Event>, parse: string -> Option<D>)
    requires Other(ai) !in s.aiResponses
    requires forall i :: 0 <= i < |events| ==> events[i].Response? && events[i].ai == ai
    ensures var t := Replay(s, events, parse);
      && t.handled == s.handled
      && t.processingTime1 == s.processingTime1 && t.processingTime2 == s.processingTime2
      && Other(ai) !in t.aiResponses
    decreases |events|
  {
    if |events| > 0 {
      var e := events[0];
      var stored := Store(s, ai, e.jsonData, e.now);
      assert Other(ai) !in stored.aiResponses;
      assert AI1 !in stored.aiResponses || AI2 !in stored.aiResponses;
      var next := OnResponse(s, ai, e.jsonData, e.now, parse).state;
      assert next == stored;
      NeverBeforeBoth(next, ai, events[1..], parse);
    }
  }

  /** Driven by events: a send followed by one response per AI, in either order, fires the handler once. */
  lemma {:induction false} OneTurnFiresOnce<D>(s: JoinState<D>, jsonRequest: string, sentAt: real, first: AiId,
                                               jsonFirst: string, atFirst: real, jsonSecond: string, atSecond: real,
                                               parse: string -> Option<D>)
    requires parse(jsonFirst).Some? && parse(jsonSecond).Some?
    ensures var t := Replay(s, [Send(jsonRequest, sentAt), Response(first, jsonFirst, atFirst), Response(Other(first), jsonSecond, atSecond)], parse);
      |t.handled| == |s.handled| + 1 && t.aiResponses.Keys == {AI1, AI2}
  {
    var events := [Send(jsonRequest, sentAt), Response(first, jsonFirst, atFirst), Response(Other(first), jsonSecond, atSecond)];
    var t0 := AfterSend(s, jsonRequest, sentAt);
    var s1 := Store(t0, first, jsonFirst, atFirst);
    assert s1.aiResponses.Keys == {first};
    var c1 := OnResponse(t0, first, jsonFirst, atFirst, parse);
    assert c1.state == s1;
    var s2 := Store(c1.state, Other(first), jsonSecond, atSecond);
    assert s2.aiResponses.Keys == {AI1, AI2};
    var c2 := OnResponse(c1.state, Other(first), jsonSecond, atSecond, parse);
    assert s2.aiResponses[first].jsonData == jsonFirst;
    assert s2.aiResponses[Other(first)].jsonData == jsonSecond;
    assert c2.outcome == Handled;
    assert events[1..][1..][1..] == [];
    assert Replay(s, events, parse) == Replay(t0, events[1..], parse);
    assert Replay(t0, events[1..], parse) == Replay(c1.state, events[1..][1..], parse);
    assert Replay(c1.state, events[1..][1..], parse) == Replay(c2.state, events[1..][1..][1..], parse);
  }

  /** An AI of the engine: its running processing total and, as an abstract send, the texts it was sent. */
  class AI {
    var processingTimeSeconds: real
    var sent: seq<string>

    constructor ()
      ensures processingTimeSeconds == 0.0 && sent == []
    {
      processingTimeSeconds := 0.0;
      sent := [];
    }

    method SendData(jsonData: string)
      modifies this
      ensures sent == old(sent) + [jsonData]
      ensures processingTimeSeconds == old(processingTimeSeconds)
    {
      sent := sent + [jsonData];
    }
  }

  /**
   * GSM_Base: the two AIs, the response slots, the send time, and the
   * calls made to the derived state's onAIResponsesReceived.
   */
  class GsmBase<D> {
    const ai1: AI
    const ai2: AI
    var aiResponses: map<AiId, AIResponse<D>>
    var updateSentTime: real
    var handled: seq<(AIResponse<D>, AIResponse<D>)>

    ghost predicate Valid()
      reads this
    {
      ai1 != ai2
    }

    function State(): JoinState<D>
      reads this, ai1, ai2
    {
      JoinState(aiResponses, updateSentTime, ai1.processingTimeSeconds, ai2.processingTimeSeconds, ai1.sent, ai2.sent, handled)
    }

    constructor (ai1: AI, ai2: AI)
      requires ai1 != ai2
      ensures Valid() && this.ai1 == ai1 && this.ai2 == ai2
      ensures aiResponses == map[] && handled == [] && updateSentTime == 0.0
    {
      this.ai1 := ai1;
      this.ai2 := ai2;
      aiResponses := map[];
      updateSentTime := 0.0;
      handled := [];
    }

    /** The base state's checkState: stay in this state. */
    function CheckState(): (next: GsmBase<D>)
      ensures next == this
    {
      this
    }

    method SendRequestToBothAIs<R>(request: R, getRequestJSON: R -> string, now: real)
      requires Valid()
      modifies this, ai1, ai2
      ensures Valid()
      ensures State() == AfterSend(old(State()), getRequestJSON(request), now)
    {
      aiResponses := map[];
      updateSentTime := now;
      var jsonRequest := getRequestJSON(request);
      ai1.SendData(jsonRequest);
      ai2.SendData(jsonRequest);
    }

    method OnResponseAI1(jsonData: string, now: real, parse: string -> Option<D>) returns (outcome: CheckOutcome)
      requires Valid() && now >= updateSentTime
      modifies this, ai1, ai2
      ensures Valid()
      ensures Checked(State(), outcome) == OnResponse(old(State()), AI1, jsonData, now, parse)
    {
      ghost var s0 := State();
      var response := GetAIResponse(jsonData, now);
      aiResponses := aiResponses[AI1 := response];
      assert State() == Store(s0, AI1, jsonData, now);
      outcome := CheckResponses(parse);
    }

    method OnResponseAI2(jsonData: string, now: real, parse: string -> Option<D>) returns (outcome: CheckOutcome)
      requires Valid() && now >= updateSentTime
      modifies this, ai1, ai2
      ensures Valid()
      ensures Checked(State(), outcome) == OnResponse(old(State()), AI2, jsonData, now, parse)
    {
      ghost var s0 := State();
      var response := GetAIResponse(jsonData, now);
      aiResponses := aiResponses[AI2 := response];
      assert State() == Store(s0, AI2, jsonData, now);
      outcome := CheckResponses(parse);
    }

    method CheckResponses(parse: string -> Option<D>) returns (outcome: CheckOutcome)
      requires Valid()
      modifies this, ai1, ai2
      ensures Valid()
      ensures Checked(State(), outcome) == Check(old(State()), parse)
    {
      if AI1 !in aiResponses {
        return Waiting;
      }
      if AI2 !in aiResponses {
        return Waiting;
      }

      var response1 := aiResponses[AI1];
      var response2 := aiResponses[AI2];

      var data1 := parse(response1.jsonData);
      if data1.None? {
        return ParseFailed(AI1);
      }
      response1 := response1.(data := data1);
      aiResponses := aiResponses[AI1 := response1];
      var data2 := parse(response2.jsonData);
      if data2.None? {
        return ParseFailed(AI2);
      }
      response2 := response2.(data := data2);
      aiResponses := aiResponses[AI2 := response2];

      ai1.processingTimeSeconds := ai1.processingTimeSeconds + response1.processingTimeSeconds;
      ai2.processingTimeSeconds := ai2.processingTimeSeconds + response2.processingTimeSeconds;

      // onAIResponsesReceived
      handled := handled + [(response1, response2)];
      outcome := Handled;
    }

    method GetAIResponse(jsonData: string, now: real) returns (response: AIResponse<D>)
      requires now >= updateSentTime
      ensures response.jsonData == jsonData && response.data.None?
      ensures response.processingTimeSeconds == now - updateSentTime
      ensures response.processingTimeSeconds >= 0.0
    {
      response := AIResponse(jsonData, None, now - updateSentTime);
    }
  }
}
