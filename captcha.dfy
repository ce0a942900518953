/**
 * Construction of the arithmetic challenge sent to a user who asks to join the guarded chat
 * (`_build_challenge` in main.py).  The random draws of the source are inputs here: the two
 * operands, the stream of deltas the option loop consumes, and the indices `random.shuffle`
 * draws while it permutes the option list in place.
 */
module Captcha {
  import opened Wrappers
  import opened PyInt

  const MinLeft := 2
  const MaxLeft := 9
  const MinRight := 1
  const MaxRight := 8
  /** `random.randint(-5, 5)`: every decoy lies within this distance of the correct sum. */
  const MaxDelta := 5
  /** Number of buttons offered: the correct sum and three decoys. */
  const OptionCount := 4

  /** The values the source draws at random while building one challenge. */
  datatype Draws = Draws(left: int, right: int, deltas: seq<int>, swaps: seq<int>)

  /** One presented option: its numeric value and its button label. */
  datatype OptionButton = OptionButton(value: int, labelText: string)

  /** What `_build_challenge` returns: `(expected, formatted, left, right)`. */
  datatype Challenge = Challenge(expected: int, options: seq<OptionButton>, left: int, right: int)

  predicate Distinct(s: seq<int>) {
    forall p, q :: 0 <= p < q < |s| ==> s[p] != s[q]
  }

  /**
   * The draws `random.shuffle` makes on a list of length `n`: for i = n-1 down to 1 one index
   * j in [0, i]; the k-th draw belongs to i = n-1-k.
   */
  predicate ValidSwaps(n: nat, swaps: seq<int>) {
    |swaps| == (if n == 0 then 0 else n - 1) &&
    forall k :: 0 <= k < |swaps| ==> 0 <= swaps[k] <= n - 1 - k
  }

  /** The ranges `random.randint` draws from in main.py. */
  predicate ValidDraws(d: Draws) {
    MinLeft <= d.left <= MaxLeft &&
    MinRight <= d.right <= MaxRight &&
    (forall k :: 0 <= k < |d.deltas| ==> -MaxDelta <= d.deltas[k] <= MaxDelta) &&
    ValidSwaps(OptionCount, d.swaps)
  }

  function OptionValues(options: seq<OptionButton>): seq<int>
  {
    seq(|options|, k requires 0 <= k < |options| => options[k].value)
  }

  /** The label main.py gives a button: the configured button text, a space, the value. */
  function Label(buttonText: string, value: int): string {
    buttonText + " " + IntToText(value)
  }

  /** The shape every challenge has once built. */
  predicate WellFormed(c: Challenge, buttonText: string) {
    MinLeft <= c.left <= MaxLeft &&
    MinRight <= c.right <= MaxRight &&
    c.expected == c.left + c.right &&
    |c.options| == OptionCount &&
    Distinct(OptionValues(c.options)) &&
    (exists k :: 0 <= k < |c.options| && c.options[k].value == c.expected) &&
    (forall k :: 0 <= k < |c.options| ==>
      c.expected - MaxDelta <= c.options[k].value <= c.expected + MaxDelta &&
      c.options[k].labelText == Label(buttonText, c.options[k].value))
  }

  // ---------------------------------------------------------------------------------------
  // The option loop: `options = {expected}; while len(options) < 4: options.add(expected + delta)`

  /**
   * What the option loop computes from the set `s` it holds and the deltas still to be drawn;
   * `None` when the finite stream of draws runs out before four distinct values are collected.
   */
  function Grow(expected: int, s: set<int>, deltas: seq<int>): Option<set<int>>
    decreases |deltas|
  {
    if |s| >= OptionCount then Some(s)
    else if deltas == [] then None
    else Grow(expected, s + {expected + deltas[0]}, deltas[1..])
  }

  /**
   * When the loop stops, its set holds exactly four values, keeps every value it started with,
   * and lies within MaxDelta of `expected`.
   */
  lemma {:induction false} GrowShape(expected: int, s: set<int>, deltas: seq<int>)
    requires expected in s && |s| <= OptionCount
    requires forall x :: x in s ==> expected - MaxDelta <= x <= expected + MaxDelta
    requires forall k :: 0 <= k < |deltas| ==> -MaxDelta <= deltas[k] <= MaxDelta
    ensures Grow(expected, s, deltas).Some? ==>
      var r := Grow(expected, s, deltas).value;
      |r| == OptionCount && s <= r && expected in r &&
      forall x :: x in r ==> expected - MaxDelta <= x <= expected + MaxDelta
    decreases |deltas|
  {
    if |s| < OptionCount && deltas != [] {
      var x := expected + deltas[0];
      assert |s + {x}| <= |s| + 1 by {
        if x in s { assert s + {x} == s; }
      }
      GrowShape(expected, s + {x}, deltas[1..]);
    }
  }

  method GrowOptions(expected: int, deltas: seq<int>) returns (r: Option<set<int>>)
    requires forall k :: 0 <= k < |deltas| ==> -MaxDelta <= deltas[k] <= MaxDelta
    ensures r == Grow(expected, {expected}, deltas)
    ensures r.Some? ==> |r.value| == OptionCount && expected in r.value
    ensures r.Some? ==> forall x :: x in r.value ==> expected - MaxDelta <= x <= expected + MaxDelta
  {
    var options := {expected};
    var i := 0;
    while |options| < OptionCount && i < |deltas|
      invariant 0 <= i <= |deltas|
      invariant Grow(expected, options, deltas[i..]) == Grow(expected, {expected}, deltas)
      decreases |deltas| - i
    {
      assert deltas[i..][1..] == deltas[i + 1..];
      options := options + {expected + deltas[i]};
      i := i + 1;
    }
    if |options| < OptionCount {
      return None;
    }
    GrowShape(expected, {expected}, deltas);
    return Some(options);
  }

  // ---------------------------------------------------------------------------------------
  // `list(options)`: the iteration order of a Python set is not specified, so it is a choice.

  lemma NonEmptyHasElement(s: set<int>)
    requires s != {}
    ensures exists y :: y in s
  {
    if forall y :: y !in s {
      assert false;
    }
  }

  method SetToList(s: set<int>) returns (xs: seq<int>)
    ensures |xs| == |s| && Distinct(xs)
    ensures forall x :: x in xs <==> x in s
  {
    xs := [];
    var rest := s;
    while rest != {}
      invariant rest <= s
      invariant Distinct(xs)
      invariant forall x :: x in xs <==> x in s && x !in rest
      invariant |xs| + |rest| == |s|
      decreases |rest|
    {
      NonEmptyHasElement(rest);
      var y :| y in rest;
      xs := xs + [y];
      rest := rest - {y};
    }
  }

  // ---------------------------------------------------------------------------------------
  // `random.shuffle`: for i from n-1 down to 1, swap x[i] with x[j] for a drawn j in [0, i].

  function SwapAt(s: seq<int>, i: nat, j: nat): seq<int>
    requires i < |s| && j < |s|
  {
    s[i := s[j]][j := s[i]]
  }

  /** The list after the shuffle has used the draws from index `k` on. */
  function ShuffledFrom(s: seq<int>, swaps: seq<int>, k: nat): seq<int>
    requires ValidSwaps(|s|, swaps) && k <= |swaps|
    decreases |swaps| - k
  {
    if k == |swaps| then s
    else ShuffledFrom(SwapAt(s, |s| - 1 - k, swaps[k]), swaps, k + 1)
  }

  function Shuffled(s: seq<int>, swaps: seq<int>): seq<int>
    requires ValidSwaps(|s|, swaps)
  {
    ShuffledFrom(s, swaps, 0)
  }

  lemma SwapAtPermutes(s: seq<int>, i: nat, j: nat)
    requires i < |s| && j < |s|
    ensures multiset(SwapAt(s, i, j)) == multiset(s)
    ensures Distinct(s) ==> Distinct(SwapAt(s, i, j))
  {
  }

  /** The shuffle is a permutation: same elements, same multiplicities, same length. */
  lemma {:induction false} ShuffledFromPermutes(s: seq<int>, swaps: seq<int>, k: nat)
    requires ValidSwaps(|s|, swaps) && k <= |swaps|
    ensures |ShuffledFrom(s, swaps, k)| == |s|
    ensures multiset(ShuffledFrom(s, swaps, k)) == multiset(s)
    ensures Distinct(s) ==> Distinct(ShuffledFrom(s, swaps, k))
    decreases |swaps| - k
  {
    if k < |swaps| {
      SwapAtPermutes(s, |s| - 1 - k, swaps[k]);
      ShuffledFromPermutes(SwapAt(s, |s| - 1 - k, swaps[k]), swaps, k + 1);
    }
  }

  /** After the shuffle the list holds the same values, still without repeats. */
  lemma ShuffledKeepsElements(s: seq<int>, swaps: seq<int>)
    requires ValidSwaps(|s|, swaps)
    ensures |Shuffled(s, swaps)| == |s|
    ensures Distinct(s) ==> Distinct(Shuffled(s, swaps))
    ensures forall x :: x in Shuffled(s, swaps) <==> x in s
  {
    var r := Shuffled(s, swaps);
    ShuffledFromPermutes(s, swaps, 0);
    forall x ensures x in r <==> x in s {
      assert x in r <==> x in multiset(r);
      assert x in s <==> x in multiset(s);
    }
  }

  method Shuffle(a: array<int>, swaps: seq<int>)
    requires ValidSwaps(a.Length, swaps)
    modifies a
    ensures a[..] == Shuffled(old(a[..]), swaps)
  {
    var k := 0;
    while k < |swaps|
      invariant 0 <= k <= |swaps|
      invariant ShuffledFrom(a[..], swaps, k) == Shuffled(old(a[..]), swaps)
    {
      var i, j := a.Length - 1 - k, swaps[k];
      ghost var before := a[..];
      a[i], a[j] := a[j], a[i];
      assert a[..] == SwapAt(before, i, j);
      k := k + 1;
    }
  }

  // ---------------------------------------------------------------------------------------
  // The label comprehension and `_build_challenge` itself.

  /**
   * `[{"value": v, "label": f"{BUTTON_TEXT} {v}"} for v in values]`: option k carries value k,
   * and its label is the button text, a space, and text that `int` reads back as that value.
   */
  function FormatOptions(values: seq<int>, buttonText: string): (r: seq<OptionButton>)
    ensures |r| == |values|
    ensures forall k :: 0 <= k < |r| ==>
      r[k].value == values[k] &&
      |r[k].labelText| > |buttonText| + 1 &&
      r[k].labelText[..|buttonText| + 1] == buttonText + " " &&
      ParseInt(r[k].labelText[|buttonText| + 1..]) == Some(values[k])
  {
    IntToTextReadsBack();
    seq(|values|, k requires 0 <= k < |values| => OptionButton(values[k], Label(buttonText, values[k])))
  }

  /** Distinct option values give distinct labels, so no two buttons read the same. */
  lemma LabelsDistinct(values: seq<int>, buttonText: string)
    requires Distinct(values)
    ensures forall p, q :: 0 <= p < q < |values| ==>
      FormatOptions(values, buttonText)[p].labelText != FormatOptions(values, buttonText)[q].labelText
  {
    var r := FormatOptions(values, buttonText);
    forall p, q | 0 <= p < q < |values| ensures r[p].labelText != r[q].labelText {
      var n := |buttonText| + 1;
      assert r[p].labelText[n..] == IntToText(values[p]);
      assert r[q].labelText[n..] == IntToText(values[q]);
      IntToTextInjective(values[p], values[q]);
    }
  }

  /** Formatting four distinct values around the sum of valid operands gives a well-formed challenge. */
  lemma FormattedWellFormed(values: seq<int>, left: int, right: int, buttonText: string)
    requires MinLeft <= left <= MaxLeft && MinRight <= right <= MaxRight
    requires |values| == OptionCount && Distinct(values) && left + right in values
    requires forall k :: 0 <= k < |values| ==> left + right - MaxDelta <= values[k] <= left + right + MaxDelta
    ensures WellFormed(Challenge(left + right, FormatOptions(values, buttonText), left, right), buttonText)
    ensures OptionValues(FormatOptions(values, buttonText)) == values
  {
    var options := FormatOptions(values, buttonText);
    assert OptionValues(options) == values;
    var k :| 0 <= k < |values| && values[k] == left + right;
    assert options[k].value == left + right;
  }

  /**
   * `_build_challenge`: sum the operands, grow the candidate set to four values, list it,
   * shuffle the list in place and format each entry.  `None` only when the finite stream of
   * deltas runs out first, which the unbounded random source of main.py never does.
   */
  method BuildChallenge(draws: Draws, buttonText: string) returns (r: Option<Challenge>)
    requires ValidDraws(draws)
    ensures r.Some? <==> Grow(draws.left + draws.right, {draws.left + draws.right}, draws.deltas).Some?
    ensures r.Some? ==>
      WellFormed(r.value, buttonText) &&
      r.value.left == draws.left && r.value.right == draws.right &&
      (forall x :: x in OptionValues(r.value.options) <==>
        x in Grow(draws.left + draws.right, {draws.left + draws.right}, draws.deltas).value)
  {
    var expected := draws.left + draws.right;
    var grown := GrowOptions(expected, draws.deltas);
    if grown.None? {
      return None;
    }
    var values := SetToList(grown.value);
    var a := new int[|values|](k requires 0 <= k < |values| => values[k]);
    assert a[..] == values;
    Shuffle(a, draws.swaps);
    var shuffled := a[..];
    ShuffledKeepsElements(values, draws.swaps);
    assert forall k :: 0 <= k < |shuffled| ==> shuffled[k] in grown.value;
    FormattedWellFormed(shuffled, draws.left, draws.right, buttonText);
    var c := Challenge(expected, FormatOptions(shuffled, buttonText), draws.left, draws.right);
    return Some(c);
  }
}
