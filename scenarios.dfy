/**
 * Client code that drives the gatekeeper through whole conversations and checks, from the
 * handlers' contracts alone, what the platform sees and what stays in the table.
 */
module Scenarios {
  import opened Wrappers
  import opened PyInt
  import opened Captcha
  import opened JoinFlow

  const AllOk := Gateway(true, true, true, true, Some(Member))

  /** Deltas 1, 2, 3 each add a new value, so the option loop stops after exactly three draws. */
  lemma GrowOneTwoThree(e: int)
    ensures Grow(e, {e}, [1, 2, 3]) == Some({e, e + 1, e + 2, e + 3})
  {
    assert {e} + {e + 1} == {e, e + 1} && |{e, e + 1}| == 2;
    assert {e, e + 1} + {e + 2} == {e, e + 1, e + 2} && |{e, e + 1, e + 2}| == 3;
    assert {e, e + 1, e + 2} + {e + 3} == {e, e + 1, e + 2, e + 3} && |{e, e + 1, e + 2, e + 3}| == 4;
    assert [1, 2, 3][1..] == [2, 3] && [2, 3][1..] == [3] && [3][1..] == [];
  }

  /** A member of the channel who presses the button with the correct sum is approved. */
  method CorrectAnswerIsApproved(config: Config)
    requires config.chatId == 100
  {
    var gate := new Gatekeeper(config);
    var draws := Draws(4, 3, [1, 2, 3], [0, 0, 0]);
    GrowOneTwoThree(7);
    var outcome, issued := gate.HandleJoinRequest(100, 55, draws, true);
    assert outcome == Challenged && 55 in gate.joinStates;
    assert gate.joinStates[55].expectedAnswer == 7;
    ParseIntOfIntToText(7);
    assert IntToText(7) == "7";
    var effectsBefore := gate.effects;
    outcome := gate.HandleCallback(55, "7", AllOk);
    assert outcome == Approved;
    assert gate.effects == effectsBefore +
      [GetChatMember(config.channelId, 55), ApproveJoinRequest(100, 55), AnswerCallback(config.successText, true)];
    assert gate.joinStates == map[];
  }

  /**
   * A wrong answer is declined once and clears the entry, so pressing a button again raises
   * and there is no second decline.
   */
  method WrongAnswerThenReplay(config: Config, draws: Draws)
    requires ValidDraws(draws)
  {
    var gate := new Gatekeeper(config);
    var outcome, issued := gate.HandleJoinRequest(config.chatId, 55, draws, true);
    if outcome != Challenged {
      return;
    }
    var wrong := gate.joinStates[55].expectedAnswer + 1;
    ParseIntOfIntToText(wrong);
    var effectsBefore := gate.effects;
    outcome := gate.HandleCallback(55, IntToText(wrong), AllOk);
    assert outcome == DeclinedWrongAnswer;
    assert gate.effects == effectsBefore +
      [DeclineJoinRequest(config.chatId, 55), AnswerCallback(config.answerIncorrect, true)];
    assert gate.joinStates == map[];

    effectsBefore := gate.effects;
    outcome := gate.HandleCallback(55, IntToText(wrong), AllOk);
    assert outcome == Raised(AttributeError);
    assert gate.effects == effectsBefore;
  }

  /** Declining one user's wrong answer leaves another user's pending request as it was. */
  method WrongAnswerKeepsOthers(config: Config, draws: Draws, otherDraws: Draws)
    requires ValidDraws(draws) && ValidDraws(otherDraws)
  {
    var gate := new Gatekeeper(config);
    var outcome, issued := gate.HandleJoinRequest(config.chatId, 7, otherDraws, true);
    if outcome != Challenged {
      return;
    }
    var other := gate.joinStates[7];
    outcome, issued := gate.HandleJoinRequest(config.chatId, 55, draws, true);
    if outcome != Challenged {
      return;
    }
    var wrong := gate.joinStates[55].expectedAnswer + 1;
    ParseIntOfIntToText(wrong);
    outcome := gate.HandleCallback(55, IntToText(wrong), AllOk);
    assert outcome == DeclinedWrongAnswer;
    assert gate.joinStates == map[7 := other];
  }

  /**
   * Two join requests from one user leave one entry, the second one; the first challenge's
   * answer then no longer matches and is declined.
   */
  method LastRequestWins(config: Config, first: Draws, second: Draws)
    requires ValidDraws(first) && ValidDraws(second)
    requires first.left + first.right != second.left + second.right
  {
    var gate := new Gatekeeper(config);
    var outcome, issued := gate.HandleJoinRequest(config.chatId, 55, first, true);
    if outcome != Challenged {
      return;
    }
    outcome, issued := gate.HandleJoinRequest(config.chatId, 55, second, true);
    if outcome != Challenged {
      return;
    }
    assert gate.joinStates.Keys == {55};
    assert gate.joinStates[55].expectedAnswer == second.left + second.right;
    var stale := first.left + first.right;
    ParseIntOfIntToText(stale);
    outcome := gate.HandleCallback(55, IntToText(stale), AllOk);
    assert outcome == DeclinedWrongAnswer;
    assert gate.joinStates == map[];
  }

  /** A correct answer from a user who left the channel is declined, never approved. */
  method NotSubscribedIsDeclined(config: Config, draws: Draws)
    requires ValidDraws(draws)
  {
    var gate := new Gatekeeper(config);
    var outcome, issued := gate.HandleJoinRequest(config.chatId, 55, draws, true);
    if outcome != Challenged {
      return;
    }
    var answer := gate.joinStates[55].expectedAnswer;
    ParseIntOfIntToText(answer);
    var effectsBefore := gate.effects;
    outcome := gate.HandleCallback(55, IntToText(answer), Gateway(true, true, true, true, Some(Left)));
    assert outcome == DeclinedNotSubscribed;
    assert gate.effects == effectsBefore +
      [GetChatMember(config.channelId, 55), DeclineJoinRequest(config.chatId, 55),
       AnswerCallback(config.notSubscribed, true)];
  }
}
