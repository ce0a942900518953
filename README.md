# Join-request captcha gatekeeper, modelled in Dafny

The system is a chat bot that guards one group chat. When a user asks to join the chat, the bot
sends the user an arithmetic puzzle (`left + right = ?`) with four answer buttons. When the user
presses a button, the bot checks the answer. If the answer is right, it also checks that the
user is a member of a configured channel. It then approves or declines the join request. Pending
requests live in one in-memory table, `join_states`, keyed by user id.

The model covers the whole of this logic, all of which is in `main.py`:

- `pyint.dfy` (module `PyInt`): Python's `str(int)` and the decimal subset of `int(str)`. The
  bot uses them to write button labels and callback payloads and to read a pressed button back.
  It proves that `int(str(i)) == i`.
- `captcha.dfy` (module `Captcha`): `_build_challenge`. The random draws are inputs (`Draws`):
  the two operands, the finite stream of deltas the option loop consumes, and the indices
  `random.shuffle` draws. The option loop is a `while` loop over a set, proved against the
  function `Grow`. `list(options)` picks elements one at a time, because a Python set has no
  specified order. The shuffle is CPython's in-place Fisher-Yates swap loop on an `array`,
  proved against the function `Shuffled`. Lemmas show that the shuffle is a permutation.
- `join_flow.dfy` (module `JoinFlow`): `JoinRequestState`, and a class `Gatekeeper` that holds
  `join_states` as a `map` plus a log of the platform calls made so far. `HandleJoinRequest` and
  `HandleCallback` are the two handlers. Each platform call (send message, get chat member,
  decline, approve, answer callback) is appended to the log. What the platform returns is an
  input (`Gateway`): whether each call succeeds, and the member status. A failing call ends the
  handler, as the exception it raises in Python would.
- `scenarios.dfy` (module `Scenarios`): client methods that run whole conversations through the
  handlers, using only the handlers' contracts. They cover approval, a replay after a wrong
  answer, a wrong answer that leaves another user's request alone, last-request-wins, and a
  decline when the user is not subscribed.

The object invariant `Gatekeeper.Valid` says three things about every entry of the table: it
is keyed by its own user id, it targets the guarded chat, and its challenge is well formed.
"Well formed" means: `left` in [2,9], `right` in [1,8], `expected == left + right`, four
pairwise-distinct option values, one of which is `expected`, all within 5 of `expected`, and
each labelled `BUTTON_TEXT + " " + str(value)`.

What `main.py` does, and the model with it:

- There are no modes: every accepted request gets the arithmetic puzzle, and every callback
  checks the answer first and then the subscription.
- An unknown user or a malformed payload gets no notice: the handler raises.
  `int(callback.data)` runs before `state.expected_answer` is read (main.py:103-104), so a
  malformed payload raises `ValueError` even when there is no pending state. A well-formed
  payload with no pending state raises `AttributeError`. Neither path changes the table or
  calls the platform.
- Any member status other than `MEMBER` is declined. That includes the channel's creator and
  administrators, because `main.py:112` compares against `MEMBER` only.

## Model

| member | source | states |
|---|---|---|
| `PyInt.NatToText` | main.py:59 | the decimal text of a natural number is non-empty, all digits, and has no leading zero unless the number is 0 |
| `PyInt.IntToText` | main.py:75 | `str(i)` is non-empty and starts with '-' exactly when `i` is negative |
| `PyInt.ParseInt` | main.py:103 | `int(s)` succeeds exactly when `s` is an optional '-' followed by one or more digits (leading zeros allowed), and otherwise fails (the `ValueError` path); an unsigned literal reads as the value of its digits and a signed one as its negation, so `"07"` gives 7 and `"-0"` gives 0 |
| `PyInt.DigitsValueOfNatToText` | main.py:75 | reading the digits of `str(n)` back gives `n` |
| `PyInt.ParseIntOfIntToText` | main.py:75 | round trip: `int(str(i)) == i` for every integer, negatives included, so every button's callback data reads back as its own value |
| `PyInt.IntToTextInjective` | main.py:59 | `str(a) == str(b)` exactly when `a == b` |
| `PyInt.IntToTextHasNoSpace` | main.py:82 | `str(i)` contains no space, so in the puzzle text the first space ends the left operand |
| `Captcha.GrowShape` | main.py:53-55 | when the option loop stops, its set has exactly 4 values, keeps everything it started with (so `expected`), and every value lies in [expected-5, expected+5] |
| `Captcha.GrowOptions` | main.py:53-55 | the `while len(options) < 4` loop computes `Grow(expected, {expected}, deltas)`; when it finishes, the set has 4 values, contains `expected`, and stays within 5 of `expected`; `None` only when the finite stream of deltas runs out first |
| `Captcha.SetToList` | main.py:56 | `list(options)` has no repeats and holds exactly the elements of the set, so its length is the set's size |
| `Captcha.SwapAtPermutes` | main.py:57 | one swap of the shuffle keeps the multiset of elements and keeps the elements distinct |
| `Captcha.ShuffledFromPermutes` | main.py:57 | the whole shuffle is a permutation: same length, same multiset, and distinct elements stay distinct |
| `Captcha.ShuffledKeepsElements` | main.py:56-57 | the shuffled list has the same length and exactly the same values as the list it started from, and it stays free of repeats |
| `Captcha.Shuffle` | main.py:57 | `random.shuffle` in place: the array afterwards is `Shuffled(old contents, draws)`, the reference swap sequence i = n-1 down to 1 with j drawn in [0, i] |
| `Captcha.LabelsDistinct` | main.py:58-60 | distinct option values give distinct button labels |
| `Captcha.FormatOptions` | main.py:58-60 | the label comprehension keeps the order and the values: option k carries value k, and its label is `BUTTON_TEXT`, a space, and text that `int` reads back as that value |
| `Captcha.FormattedWellFormed` | main.py:58-61 | formatting four distinct values around the sum of in-range operands gives a well-formed challenge whose option values are those values, in order |
| `Captcha.BuildChallenge` | main.py:49-61 | `expected == left + right` with `left` in [2,9] and `right` in [1,8]; four distinct option values containing `expected`, each within 5 of it and labelled `BUTTON_TEXT + " " + str(value)`; the option values are exactly the set the option loop built; a challenge exists exactly when that loop finishes |
| `JoinFlow.Keyboard` | main.py:71-80 | one button per option, in order: button k shows option k's label, and its callback data reads back through `int` as option k's value |
| `JoinFlow.SplitPuzzle` | main.py:82 | a puzzle `a + b = ?` whose left operand has no space splits back into its two operands |
| `JoinFlow.ChallengeTextNamesOperands` | main.py:82 | the message text `INSTRUCTION_TEXT + "\n\n" + f"{left} + {right} = ?"` names its operands: for one instruction, two texts are equal exactly when both `left` and `right` are equal |
| `JoinFlow.CorrectButtonUnique` | main.py:71-80 | for a pending entry, every button's callback data reads back through `int` to that button's value, and exactly one button reads back as `expected_answer` |
| `JoinFlow.Gatekeeper.constructor` | main.py:46 | `join_states` starts empty and no platform call has been made |
| `JoinFlow.Gatekeeper.HandleJoinRequest` | main.py:64-94 | a request for another chat changes nothing and sends nothing; otherwise exactly one challenge message goes to the requester, with the puzzle text and one button per option; if sending succeeds, `join_states[user_id]` becomes the new state, overwriting any earlier entry, and every other entry is unchanged; if sending fails, the table is unchanged; the table invariant is kept |
| `JoinFlow.Gatekeeper.HandleCallback` | main.py:97-121 | a payload `int` rejects, or a missing entry, raises with the table and the log unchanged; a wrong answer logs exactly one decline (and no membership query), then removes the entry and logs the "incorrect" alert; a right answer logs one membership query, then either one decline, removal and the "not subscribed" alert, or (status MEMBER) one approve, removal and the success alert; a failing decline or approve leaves the entry in place; other users' entries never change; the table invariant is kept |
| `Scenarios.GrowOneTwoThree` | main.py:53-55 | deltas 1, 2, 3 make the option loop stop after three draws with the set {e, e+1, e+2, e+3} |

## Left out

- Environment loading, bot, router and dispatcher setup, and polling (main.py:18-33, 124-131): the settings are a `Config` value, and the handlers are called directly.
- The platform calls themselves (`send_message`, `get_chat_member`, `decline_chat_join_request`, `approve_chat_join_request`, `callback.answer`): each is a logged `Effect`, and its result is an input. The message's `protect_content` property is not modelled.
- `int(CHAT_ID_STR)` on each join request: the guarded chat id is taken as an already parsed integer, so a `CHAT_ID` that does not parse is not modelled.
- `callback.data` being absent (`int(None)` raises `TypeError`): the payload is always a string here.
- The full grammar of Python's `int()` (surrounding whitespace, a '+' sign, underscores, non-ASCII digits): only an optional '-' followed by decimal digits is accepted.
- Randomness: the draws are inputs. Nothing here says the draws are uniform, so the probability distribution of the puzzle and the fairness of the shuffle are not modelled.
- Captcha.BuildChallenge: the option loop in `main.py` runs until it has drawn enough deltas, which happens with probability 1. Here the deltas are a finite sequence, and running out gives `None`. `JoinFlow.Gatekeeper.HandleJoinRequest` then returns `OutOfDraws` and changes nothing. That outcome does not exist in `main.py`.
- The order in which a Python set is iterated: `list(options)` is modelled as an arbitrary order, not CPython's hash order.
- async/await interleaving: each handler runs to completion, so races on `join_states` across `await` points are not modelled.
- What the bot does after `callback.answer` fails: the alert is logged as attempted, and the handler reports `GatewayError`. The entry is already removed at that point, as in `main.py`.
