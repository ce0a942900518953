/**
 * The join-request gatekeeper of main.py: the module-level table `join_states` of pending
 * requests, the join-request handler that issues a challenge and records it, and the callback
 * handler that checks the answer, then the channel subscription, and approves or declines.
 *
 * Calls to the chat platform are not performed: each one is appended to an effect log, and
 * what the platform answers (success or failure of a call, the user's membership status) is
 * an input of the handler.
 */
module JoinFlow {
  import opened Wrappers
  import opened PyInt
  import opened Captcha

  /** The settings main.py reads from the environment at start-up. */
  datatype Config = Config(
    chatId: int,             // int(CHAT_ID): the guarded chat
    channelId: string,       // CHANNEL_ID, passed as text to get_chat_member
    instructionText: string,
    successText: string,
    buttonText: string,
    answerIncorrect: string,
    notSubscribed: string)

  /** One pending join request, keyed by the requester's user id in `join_states`. */
  datatype JoinRequestState = JoinRequestState(
    chatId: int,
    userId: int,
    expectedAnswer: int,
    options: seq<OptionButton>,
    left: int,
    right: int)

  /** The statuses the platform reports for a chat member. */
  datatype MemberStatus = Creator | Administrator | Member | Restricted | Left | Kicked

  /** An inline keyboard button: its caption and the callback data it sends back. */
  datatype Button = Button(text: string, callbackData: string)

  /** A call made to the chat platform. */
  datatype Effect =
    | SendMessage(recipient: int, text: string, keyboard: seq<Button>)
    | GetChatMember(channel: string, userId: int)
    | DeclineJoinRequest(chatId: int, userId: int)
    | ApproveJoinRequest(chatId: int, userId: int)
    | AnswerCallback(text: string, showAlert: bool)

  /**
   * How the platform answers the calls of one handler run: whether each kind of call succeeds
   * (a failing call raises out of the handler), and the membership status get_chat_member
   * returns (`None` when that call fails).
   */
  datatype Gateway = Gateway(
    sendOk: bool,
    declineOk: bool,
    approveOk: bool,
    answerOk: bool,
    member: Option<MemberStatus>)

  /** Exceptions that escape a handler. */
  datatype Failure =
    | ValueError      // int() of a payload that is not an integer literal
    | AttributeError  // no pending state: `None.expected_answer`
    | GatewayError    // a platform call failed

  datatype Outcome =
    | Ignored                 // join request for another chat
    | OutOfDraws              // the finite stream of random deltas ran out (model only)
    | Challenged
    | DeclinedWrongAnswer
    | DeclinedNotSubscribed
    | Approved
    | Raised(failure: Failure)

  /**
   * The inline keyboard, one button per option: caption = the option's label, callback data =
   * str(value).  main.py puts each button in a row of its own, so element i of this sequence
   * stands for the one-button row i.
   */
  function Keyboard(options: seq<OptionButton>): (k: seq<Button>)
    ensures |k| == |options|
    ensures forall i :: 0 <= i < |k| ==>
      k[i].text == options[i].labelText && ParseInt(k[i].callbackData) == Some(options[i].value)
  {
    IntToTextReadsBack();
    seq(|options|, i requires 0 <= i < |options| => Button(options[i].labelText, IntToText(options[i].value)))
  }

  /** The message text: the instruction, a blank line, and the puzzle `left + right = ?`. */
  function ChallengeText(instruction: string, left: int, right: int): string {
    instruction + "\n\n" + Puzzle(left, right)
  }

  function Puzzle(left: int, right: int): string {
    IntToText(left) + " + " + IntToText(right) + " = ?"
  }

  /** The text up to, and not including, its first space. */
  function UpToSpace(s: string): string
    decreases |s|
  {
    if |s| == 0 || s[0] == ' ' then [] else [s[0]] + UpToSpace(s[1..])
  }

  lemma {:induction false} UpToSpaceOfWord(word: string, rest: string)
    requires forall k :: 0 <= k < |word| ==> word[k] != ' '
    ensures UpToSpace(word + " " + rest) == word
    decreases |word|
  {
    if |word| > 0 {
      assert (word + " " + rest)[1..] == word[1..] + " " + rest;
      UpToSpaceOfWord(word[1..], rest);
    }
  }

  /** `a + b = ?` with a space-free `a` splits back into `a` and `b`. */
  lemma SplitPuzzle(a: string, b: string, a2: string, b2: string)
    requires forall k :: 0 <= k < |a| ==> a[k] != ' '
    requires forall k :: 0 <= k < |a2| ==> a2[k] != ' '
    requires a + " + " + b + " = ?" == a2 + " + " + b2 + " = ?"
    ensures a == a2 && b == b2
  {
    var tail, tail2 := "+ " + b + " = ?", "+ " + b2 + " = ?";
    assert a + " + " + b + " = ?" == a + " " + tail;
    assert a2 + " + " + b2 + " = ?" == a2 + " " + tail2;
    UpToSpaceOfWord(a, tail);
    UpToSpaceOfWord(a2, tail2);
    assert (a + " " + tail)[|a| + 1..] == tail;
    assert tail[2..|tail| - 4] == b && tail2[2..|tail2| - 4] == b2;
  }

  /**
   * The puzzle text names its operands: for one instruction, two texts are equal exactly when
   * both operands are equal, so the user sees the `left` and `right` the answer is checked against.
   */
  lemma ChallengeTextNamesOperands(instruction: string, left: int, right: int, left2: int, right2: int)
    ensures ChallengeText(instruction, left, right) == ChallengeText(instruction, left2, right2) <==>
      left == left2 && right == right2
  {
    var text, text2 := ChallengeText(instruction, left, right), ChallengeText(instruction, left2, right2);
    if text == text2 {
      var n := |instruction| + 2;
      var a, b := IntToText(left), IntToText(right);
      var a2, b2 := IntToText(left2), IntToText(right2);
      assert Puzzle(left, right) == text[n..] == text2[n..] == Puzzle(left2, right2);
      IntToTextHasNoSpace(left);
      IntToTextHasNoSpace(left2);
      SplitPuzzle(a, b, a2, b2);
      IntToTextInjective(left, left2);
      IntToTextInjective(right, right2);
    }
  }

  function ChallengeOf(st: JoinRequestState): Challenge {
    Challenge(st.expectedAnswer, st.options, st.left, st.right)
  }

  /** What every entry of the table satisfies: keyed by its own user, for the guarded chat. */
  ghost predicate ValidEntry(config: Config, userId: int, st: JoinRequestState) {
    st.userId == userId &&
    st.chatId == config.chatId &&
    WellFormed(ChallengeOf(st), config.buttonText)
  }

  /**
   * Of the buttons sent for a pending request, exactly one carries callback data that `int`
   * reads back as the expected answer, and every button's data reads back as its own value.
   */
  lemma CorrectButtonUnique(config: Config, userId: int, st: JoinRequestState)
    requires ValidEntry(config, userId, st)
    ensures forall i :: 0 <= i < |st.options| ==>
      ParseInt(Keyboard(st.options)[i].callbackData) == Some(st.options[i].value)
    ensures exists i :: (0 <= i < |st.options| &&
      ParseInt(Keyboard(st.options)[i].callbackData) == Some(st.expectedAnswer))
    ensures forall i, j :: (0 <= i < |st.options| && 0 <= j < |st.options| &&
      ParseInt(Keyboard(st.options)[i].callbackData) == Some(st.expectedAnswer) &&
      ParseInt(Keyboard(st.options)[j].callbackData) == Some(st.expectedAnswer)) ==> i == j
  {
    var keys := Keyboard(st.options);
    var values := OptionValues(st.options);
    var k :| 0 <= k < |st.options| && st.options[k].value == st.expectedAnswer;
    assert ParseInt(keys[k].callbackData) == Some(st.expectedAnswer);
    forall i, j | 0 <= i < |st.options| && 0 <= j < |st.options| &&
      ParseInt(keys[i].callbackData) == Some(st.expectedAnswer) &&
      ParseInt(keys[j].callbackData) == Some(st.expectedAnswer)
      ensures i == j
    {
      assert values[i] == values[j];
    }
  }

  /** The gatekeeper's mutable state: the table `join_states` and the calls made so far. */
  class Gatekeeper {
    const config: Config
    var joinStates: map<int, JoinRequestState>
    var effects: seq<Effect>

    ghost predicate Valid()
      reads this
    {
      forall u :: u in joinStates ==> ValidEntry(config, u, joinStates[u])
    }

    /** At start-up the table is empty and no call has been made. */
    constructor (config: Config)
      ensures Valid()
      ensures this.config == config && joinStates == map[] && effects == []
    {
      this.config := config;
      joinStates := map[];
      effects := [];
    }

    /**
     * `handle_join_request`: ignore other chats; otherwise build a challenge, send it to the
     * requester and only then record it, replacing any earlier entry of the same user.
     * `issued` names the challenge that was built (its option order is a choice).
     */
    method HandleJoinRequest(reqChatId: int, userId: int, draws: Draws, sendOk: bool)
      returns (outcome: Outcome, ghost issued: Option<Challenge>)
      requires Valid() && ValidDraws(draws)
      modifies this
      ensures Valid()
      ensures reqChatId != config.chatId ==>
        outcome == Ignored && issued == None &&
        joinStates == old(joinStates) && effects == old(effects)
      ensures (reqChatId == config.chatId &&
        Grow(draws.left + draws.right, {draws.left + draws.right}, draws.deltas).None?) ==>
        outcome == OutOfDraws && issued == None &&
        joinStates == old(joinStates) && effects == old(effects)
      ensures issued.Some? <==> (reqChatId == config.chatId &&
        Grow(draws.left + draws.right, {draws.left + draws.right}, draws.deltas).Some?)
      ensures issued.Some? ==>
        var c := issued.value;
        WellFormed(c, config.buttonText) &&
        c.left == draws.left && c.right == draws.right &&
        (forall x :: x in OptionValues(c.options) <==>
          x in Grow(draws.left + draws.right, {draws.left + draws.right}, draws.deltas).value) &&
        effects == old(effects) +
          [SendMessage(userId, ChallengeText(config.instructionText, c.left, c.right), Keyboard(c.options))] &&
        outcome == (if sendOk then Challenged else Raised(GatewayError)) &&
        joinStates == (if sendOk
          then old(joinStates)[userId := JoinRequestState(config.chatId, userId, c.expected, c.options, c.left, c.right)]
          else old(joinStates))
    {
      if reqChatId != config.chatId {
        return Ignored, None;
      }
      var built := BuildChallenge(draws, config.buttonText);
      if built.None? {
        return OutOfDraws, None;
      }
      var c := built.value;
      issued := Some(c);
      effects := effects + [SendMessage(userId, ChallengeText(config.instructionText, c.left, c.right), Keyboard(c.options))];
      if !sendOk {
        return Raised(GatewayError), issued;
      }
      joinStates := joinStates[userId := JoinRequestState(reqChatId, userId, c.expected, c.options, c.left, c.right)];
      outcome := Challenged;
    }

    /**
     * `handle_callback`: parse the payload, look up the user's pending request, decline on a
     * wrong answer; otherwise query the channel membership and decline unless the status is
     * MEMBER, else approve.  Each decline or approve comes before the entry is deleted, and
     * the alert comes after.
     */
    method HandleCallback(userId: int, data: string, gw: Gateway) returns (outcome: Outcome)
      requires Valid()
      modifies this
      ensures Valid()
      // a malformed payload or an unknown user raises before anything changes
      ensures ParseInt(data).None? ==>
        outcome == Raised(ValueError) && joinStates == old(joinStates) && effects == old(effects)
      ensures ParseInt(data).Some? && userId !in old(joinStates) ==>
        outcome == Raised(AttributeError) && joinStates == old(joinStates) && effects == old(effects)
      // a wrong answer declines without asking for the membership
      ensures (ParseInt(data).Some? && userId in old(joinStates) &&
        ParseInt(data).value != old(joinStates)[userId].expectedAnswer) ==>
        var st := old(joinStates)[userId];
        effects == old(effects) + [DeclineJoinRequest(st.chatId, st.userId)] +
          (if gw.declineOk then [AnswerCallback(config.answerIncorrect, true)] else []) &&
        joinStates == (if gw.declineOk then old(joinStates) - {userId} else old(joinStates)) &&
        outcome == (if gw.declineOk && gw.answerOk then DeclinedWrongAnswer else Raised(GatewayError))
      // a correct answer asks for the membership first
      ensures (ParseInt(data).Some? && userId in old(joinStates) &&
        ParseInt(data).value == old(joinStates)[userId].expectedAnswer && gw.member.None?) ==>
        effects == old(effects) + [GetChatMember(config.channelId, userId)] &&
        joinStates == old(joinStates) && outcome == Raised(GatewayError)
      ensures (ParseInt(data).Some? && userId in old(joinStates) &&
        ParseInt(data).value == old(joinStates)[userId].expectedAnswer &&
        gw.member.Some? && gw.member.value != Member) ==>
        var st := old(joinStates)[userId];
        effects == old(effects) + [GetChatMember(config.channelId, userId), DeclineJoinRequest(st.chatId, st.userId)] +
          (if gw.declineOk then [AnswerCallback(config.notSubscribed, true)] else []) &&
        joinStates == (if gw.declineOk then old(joinStates) - {userId} else old(joinStates)) &&
        outcome == (if gw.declineOk && gw.answerOk then DeclinedNotSubscribed else Raised(GatewayError))
      ensures (ParseInt(data).Some? && userId in old(joinStates) &&
        ParseInt(data).value == old(joinStates)[userId].expectedAnswer &&
        gw.member == Some(Member)) ==>
        var st := old(joinStates)[userId];
        effects == old(effects) + [GetChatMember(config.channelId, userId), ApproveJoinRequest(st.chatId, userId)] +
          (if gw.approveOk then [AnswerCallback(config.successText, true)] else []) &&
        joinStates == (if gw.approveOk then old(joinStates) - {userId} else old(joinStates)) &&
        outcome == (if gw.approveOk && gw.answerOk then Approved else Raised(GatewayError))
    {
      var state := if userId in joinStates then Some(joinStates[userId]) else None;

      // Check the answer
      var answer := ParseInt(data);
      if answer.None? {
        return Raised(ValueError);
      }
      if state.None? {
        return Raised(AttributeError);
      }
      var st := state.value;
      if answer.value != st.expectedAnswer {
        effects := effects + [DeclineJoinRequest(st.chatId, st.userId)];
        if !gw.declineOk {
          return Raised(GatewayError);
        }
        joinStates := joinStates - {userId};
        effects := effects + [AnswerCallback(config.answerIncorrect, true)];
        return if gw.answerOk then DeclinedWrongAnswer else Raised(GatewayError);
      }

      // Check subscription
      effects := effects + [GetChatMember(config.channelId, userId)];
      if gw.member.None? {
        return Raised(GatewayError);
      }
      if gw.member.value != Member {
        effects := effects + [DeclineJoinRequest(st.chatId, st.userId)];
        if !gw.declineOk {
          return Raised(GatewayError);
        }
        joinStates := joinStates - {userId};
        effects := effects + [AnswerCallback(config.notSubscribed, true)];
        return if gw.answerOk then DeclinedNotSubscribed else Raised(GatewayError);
      }

      // Approve the join request
      effects := effects + [ApproveJoinRequest(st.chatId, userId)];
      if !gw.approveOk {
        return Raised(GatewayError);
      }
      joinStates := joinStates - {userId};
      effects := effects + [AnswerCallback(config.successText, true)];
      return if gw.answerOk then Approved else Raised(GatewayError);
    }
  }
}
