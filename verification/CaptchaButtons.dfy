/** The button challenge: its random material, and what pressing a full entry does. */
module CaptchaButtons {
  import opened Common
  import opened Captcha

  // ----- the shuffle -----

  function Swapped<T>(values: seq<T>, i: nat, j: nat): (r: seq<T>)
    requires i < |values| && j < |values|
    ensures |r| == |values|
  {
    values[i := values[j]][j := values[i]]
  }

  ghost predicate Draws(draws: seq<nat>, n: nat) {
    |draws| == n && forall i :: 0 <= i < n ==> draws[i] <= i
  }

  /** The order the shuffle leaves when `draws[i]` is what it draws at position `i`. */
  function ShuffledFrom<T>(values: seq<T>, i: nat, draws: seq<nat>): (r: seq<T>)
    requires i <= |values| && Draws(draws, |values|)
    ensures |r| == |values|
    decreases i
  {
    if i <= 1 then values else ShuffledFrom(Swapped(values, i - 1, draws[i - 1]), i - 1, draws)
  }

  lemma SwapPermutes<T>(values: seq<T>, i: nat, j: nat)
    requires i < |values| && j < |values|
    ensures multiset(Swapped(values, i, j)) == multiset(values)
  {
  }

  /** Whatever is drawn, the result is a permutation. */
  lemma {:induction false} ShufflePermutes<T>(values: seq<T>, i: nat, draws: seq<nat>)
    requires i <= |values| && Draws(draws, |values|)
    ensures multiset(ShuffledFrom(values, i, draws)) == multiset(values)
    ensures ShuffledFrom(values, i, draws)[i..] == values[i..]
    decreases i
  {
    if i > 1 {
      var next := Swapped(values, i - 1, draws[i - 1]);
      SwapPermutes(values, i - 1, draws[i - 1]);
      ShufflePermutes(next, i - 1, draws);
      var r := ShuffledFrom(next, i - 1, draws);
      assert r[i..] == r[i - 1..][1..] == next[i - 1..][1..] == values[i..];
    }
  }

  /** The first `i` values are those of the goal in some order, the others are in their places. */
  ghost predicate PlacedFrom<T>(values: seq<T>, goal: seq<T>, i: nat) {
    i <= |values| == |goal| && multiset(values[..i]) == multiset(goal[..i]) && values[i..] == goal[i..]
  }

  lemma {:induction false} DrawTowards<T>(values: seq<T>, i: nat, goal: seq<T>,
      draws: seq<nat>) returns (chosen: seq<nat>)
    requires i <= |values| == |goal| && Draws(draws, |values|) && PlacedFrom(values, goal, i)
    ensures Draws(chosen, |values|) && ShuffledFrom(values, i, chosen) == goal
    ensures chosen[i..] == draws[i..]
    decreases i
  {
    hide PlacedFrom, Swapped;
    if i <= 1 {
      SameShort(values, i, goal);
      chosen := draws;
    } else {
      var t := FindIn(values, i, goal);
      SwapKeepsPrefix(values, i, t, goal);
      RedrawnAt(draws, i, t);
      chosen := DrawTowards(Swapped(values, i - 1, t), i - 1, goal, draws[i - 1 := t]);
      DrawnFirst(values, i, goal, draws, t, chosen);
    }
    hide *;
  }

  lemma RedrawnAt(draws: seq<nat>, i: nat, t: nat)
    requires 0 < i <= |draws| && t < i && Draws(draws, |draws|)
    ensures |draws[i - 1 := t]| == |draws| && Draws(draws[i - 1 := t], |draws|)
  {
  }

  lemma DrawnFirst<T>(values: seq<T>, i: nat, goal: seq<T>, draws: seq<nat>, t: nat, chosen: seq<nat>)
    requires 1 < i <= |values| == |goal| && t < i && |draws| == |values| && Draws(chosen, |values|)
    requires |Swapped(values, i - 1, t)| == |values| && ShuffledFrom(Swapped(values, i - 1, t), i - 1, chosen) == goal
    requires chosen[i - 1..] == draws[i - 1 := t][i - 1..]
    ensures ShuffledFrom(values, i, chosen) == goal && chosen[i..] == draws[i..]
  {
    DrawnTail(chosen, draws, i, t);
    ShuffleStep(values, i, chosen);
    hide *;
  }

  lemma ShuffleStep<T>(values: seq<T>, i: nat, draws: seq<nat>)
    requires 1 < i <= |values| && Draws(draws, |values|)
    ensures draws[i - 1] <= i - 1 && |Swapped(values, i - 1, draws[i - 1])| == |values|
    ensures ShuffledFrom(values, i, draws) == ShuffledFrom(Swapped(values, i - 1, draws[i - 1]), i - 1, draws)
  {
  }

  /** Every order of the values can be drawn. */
  lemma EveryOrderIsDrawn<T>(values: seq<T>, goal: seq<T>) returns (draws: seq<nat>)
    requires multiset(values) == multiset(goal)
    ensures Draws(draws, |values|) && ShuffledFrom(values, |values|, draws) == goal
  {
    assert |multiset(values)| == |values| && |multiset(goal)| == |goal|;
    assert values[..|values|] == values && goal[..|values|] == goal;
    draws := seq(|values|, i => 0);
    draws := DrawTowards(values, |values|, goal, draws);
  }

  lemma SameShort<T>(values: seq<T>, i: nat, goal: seq<T>)
    requires i <= 1 && PlacedFrom(values, goal, i)
    ensures values == goal
  {
    if i == 1 {
      assert values[0] in multiset(values[..1]) && values[..1] == [values[0]] && goal[..1] == [goal[0]];
      assert multiset(goal[..1])[values[0]] == 1;
    }
    assert values == values[..i] + values[i..] && goal == goal[..i] + goal[i..];
  }

  lemma FindIn<T>(values: seq<T>, i: nat, goal: seq<T>) returns (t: nat)
    requires 0 < i && PlacedFrom(values, goal, i)
    ensures i <= |values| == |goal| && t < i && values[t] == goal[i - 1]
  {
    assert goal[i - 1] in multiset(goal[..i]) by {
      assert goal[i - 1] == goal[..i][i - 1];
    }
    assert goal[i - 1] in multiset(values[..i]);
    t :| 0 <= t < i && values[..i][t] == goal[i - 1];
  }

  lemma DrawnTail(chosen: seq<nat>, draws: seq<nat>, i: nat, t: nat)
    requires 0 < i <= |chosen| == |draws| && chosen[i - 1..] == draws[i - 1 := t][i - 1..]
    ensures chosen[i - 1] == t && chosen[i..] == draws[i..]
  {
    assert chosen[i - 1..][0] == t;
    assert chosen[i..] == chosen[i - 1..][1..] && draws[i..] == draws[i - 1 := t][i - 1..][1..];
  }

  lemma SwapKeepsPrefix<T>(values: seq<T>, i: nat, t: nat, goal: seq<T>)
    requires 1 < i <= |values| == |goal| && t < i && values[t] == goal[i - 1]
    requires PlacedFrom(values, goal, i)
    ensures PlacedFrom(Swapped(values, i - 1, t), goal, i - 1)
  {
    var next := Swapped(values, i - 1, t);
    SwapParts(values, i, t);
    hide Swapped;
    LastAside(next, i);
    LastAside(goal, i);
    LessOne(multiset(next[..i - 1]), multiset(goal[..i - 1]), goal[i - 1]);
  }

  lemma SwapParts<T>(values: seq<T>, i: nat, t: nat)
    requires 1 < i <= |values| && t < i
    ensures var next := Swapped(values, i - 1, t);
            multiset(next[..i]) == multiset(values[..i]) && next[i..] == values[i..] && next[i - 1] == values[t]
  {
    SwapPermutes(values[..i], i - 1, t);
    assert Swapped(values, i - 1, t)[..i] == Swapped(values[..i], i - 1, t);
  }

  lemma LessOne<T>(a: multiset<T>, b: multiset<T>, x: T)
    requires a + multiset{x} == b + multiset{x}
    ensures a == b
  {
    assert a == a + multiset{x} - multiset{x} && b == b + multiset{x} - multiset{x};
  }

  lemma LastAside<T>(s: seq<T>, i: nat)
    requires 1 <= i <= |s|
    ensures multiset(s[..i]) == multiset(s[..i - 1]) + multiset{s[i - 1]}
    ensures s[i - 1..] == [s[i - 1]] + s[i..]
  {
    assert s[..i] == s[..i - 1] + [s[i - 1]];
  }

  method Shuffled<T(0)>(values: seq<T>, draws: seq<nat>) returns (r: seq<T>)
    requires Draws(draws, |values|)
    ensures r == ShuffledFrom(values, |values|, draws)
    ensures multiset(r) == multiset(values)
  {
    ShufflePermutes(values, |values|, draws);
    var copy := new T[|values|](i requires 0 <= i < |values| => values[i]);
    assert copy[..] == values;
    var i := copy.Length;
    while i > 1
      invariant 0 <= i <= copy.Length
      invariant ShuffledFrom(copy[..], i, draws) == ShuffledFrom(values, |values|, draws)
    {
      i := i - 1;
      ghost var before := copy[..];
      copy[i], copy[draws[i]] := copy[draws[i]], copy[i];
      assert copy[..] == Swapped(before, i, draws[i]);
    }
    r := copy[..];
  }

  // ----- the material -----

  datatype Symbol = Triangle | Diamond | Circle | Square | Star

  const SEQUENCE_SYMBOLS: seq<Symbol> := [Triangle, Diamond, Circle, Square, Star]

  function SequenceLength(configured: int): nat {
    var length := if configured < 4 then 4 else if configured > 8 then 8 else configured;
    if length < 5 then length else 5
  }

  function IndexOf(choices: seq<Symbol>, symbol: Symbol): (i: nat)
    requires symbol in choices
    ensures i < |choices| && choices[i] == symbol && symbol !in choices[..i]
  {
    if choices[0] == symbol then 0 else
      var rest := IndexOf(choices[1..], symbol);
      assert choices[..rest + 1] == [choices[0]] + choices[1..][..rest];
      rest + 1
  }

  function Digits(presses: seq<nat>): (d: string)
    requires forall i :: 0 <= i < |presses| ==> presses[i] < SYMBOLS
    ensures |d| == |presses| && forall i :: 0 <= i < |presses| ==> d[i] == Digit(presses[i])
  {
    if presses == [] then [] else Digits(presses[..|presses| - 1]) + [Digit(presses[|presses| - 1])]
  }

  /** The buttons in their displayed order, and the symbols to press. */
  datatype Material = Material(choices: seq<Symbol>, target: seq<Symbol>) {
    ghost predicate WellFormed(configured: int) {
      && multiset(choices) == multiset(SEQUENCE_SYMBOLS)
      && |target| == SequenceLength(configured)
      && forall x :: x in target ==> x in choices
    }

    function ExpectedAnswer(): string
      requires |choices| == SYMBOLS && forall x :: x in target ==> x in choices
    {
      Digits(seq(|target|, i requires 0 <= i < |target| => IndexOf(choices, target[i])))
    }
  }

  lemma EachSymbolOnce(x: Symbol)
    ensures multiset(SEQUENCE_SYMBOLS)[x] == 1
  {
    assert SEQUENCE_SYMBOLS == [Triangle] + [Diamond] + [Circle] + [Square] + [Star];
    match x
    case Triangle =>
    case Diamond =>
    case Circle =>
    case Square =>
    case Star =>
  }

  lemma TwiceIsTwo<T>(s: seq<T>, i: nat, j: nat)
    requires i < j < |s| && s[i] == s[j]
    ensures multiset(s)[s[i]] >= 2
  {
    assert s == s[..j] + s[j..] && s[i] in s[..j] && s[j] in s[j..];
  }

  lemma PermutationsOfSymbols(choices: seq<Symbol>)
    requires multiset(choices) == multiset(SEQUENCE_SYMBOLS)
    ensures |choices| == SYMBOLS && (forall i, j :: 0 <= i < j < |choices| ==> choices[i] != choices[j])
    ensures forall x: Symbol :: x in choices
  {
    assert |choices| == |multiset(choices)| == |multiset(SEQUENCE_SYMBOLS)| == |SEQUENCE_SYMBOLS|;
    forall i, j | 0 <= i < j < |choices|
      ensures choices[i] != choices[j]
    {
      if choices[i] == choices[j] {
        TwiceIsTwo(choices, i, j);
        EachSymbolOnce(choices[i]);
      }
    }
    forall x: Symbol
      ensures x in choices
    {
      EachSymbolOnce(x);
      assert x in multiset(choices);
    }
  }

  method CreateButtonMaterial(configured: int, draws: seq<nat>, picks: seq<nat>) returns (m: Material)
    requires Draws(draws, SYMBOLS) && |picks| == SequenceLength(configured) && forall i :: 0 <= i < |picks| ==>
             picks[i] < SYMBOLS
    ensures m.WellFormed(configured) && m.choices == ShuffledFrom(SEQUENCE_SYMBOLS, SYMBOLS, draws)
    ensures forall i :: 0 <= i < |picks| ==> m.target[i] == m.choices[picks[i]]
  {
    var choices := Shuffled(SEQUENCE_SYMBOLS, draws);
    PermutationsOfSymbols(choices);
    m := Material(choices, Chosen(choices, picks));
  }

  function Chosen(choices: seq<Symbol>, picks: seq<nat>): (target: seq<Symbol>)
    requires forall i :: 0 <= i < |picks| ==> picks[i] < |choices|
    ensures |target| == |picks| && (forall i :: 0 <= i < |picks| ==> target[i] == choices[picks[i]])
    ensures forall x :: x in target ==> x in choices
  {
    seq(|picks|, i requires 0 <= i < |picks| => choices[picks[i]])
  }

  // ----- pressing a full entry -----

  datatype Pressed = Pressed(redis: Redis, outcomes: seq<Outcome>)

  /** A member presses buttons one after the other; nobody else acts on the challenge meanwhile. */
  function PressAll(r: Redis, s: Settings, id: ChallengeId, presses: seq<nat>, times: seq<Time>): (p: Pressed)
    requires |times| == |presses|
    ensures |p.outcomes| == |presses|
    decreases |presses|
  {
    if presses == [] then Pressed(r, [])
    else
      var n := |presses| - 1;
      var before := PressAll(r, s, id, presses[..n], times[..n]);
      var seen := Live(before.redis, id, times[n]);
      var (after, outcome) := Press(before.redis, s, id, seen, seen, presses[n], times[n]);
      Pressed(after, before.outcomes + [outcome])
  }

  predicate ReadyToPress(r: Redis, id: ChallengeId, n: nat) {
    && id in r.challenges && r.challenges[id].mode.ButtonSequence? && r.challenges[id].progress == ""
    && r.challenges[id].target == |r.challenges[id].answer| == n
  }

  lemma {:induction false} PartialEntry(r: Redis, s: Settings, id: ChallengeId, presses: seq<nat>, times: seq<Time>,
      n: nat)
    requires ReadyToPress(r, id, n) && |times| == |presses| < n
    requires forall i :: 0 <= i < |presses| ==> presses[i] < SYMBOLS && times[i] < r.challenges[id].expiresAt
    ensures var p := PressAll(r, s, id, presses, times);
            && p.redis == r.(challenges := r.challenges[id := r.challenges[id].(progress := Digits(presses))])
            && forall i :: 0 <= i < |presses| ==> p.outcomes[i] == Continue(presses[i], i + 1, n)
    decreases |presses|
  {
    if presses != [] {
      var last := |presses| - 1;
      PartialEntry(r, s, id, presses[..last], times[..last], n);
      var before := PressAll(r, s, id, presses[..last], times[..last]).redis;
      assert before.challenges[id].progress == Digits(presses[..last]);
      assert Live(before, id, times[last]) == Some(before.challenges[id]);
      assert Digits(presses) == Digits(presses[..last]) + [Digit(presses[last])];
    } else {
      assert r.challenges[id := r.challenges[id].(progress := Digits(presses))] == r.challenges;
    }
  }

  /** The last press of a full entry: a success for the expected answer, else one counted failure or the lock. */
  ghost predicate Decides(r: Redis, s: Settings, id: ChallengeId, presses: seq<nat>, at: Time, after: Redis,
      outcome: Outcome)
    requires id in r.challenges && forall i :: 0 <= i < |presses| ==> presses[i] < SYMBOLS
  {
    var c := r.challenges[id];
    && (outcome == Success <==> Digits(presses) == c.answer)
    && (Digits(presses) == c.answer ==> id !in after.challenges && id in after.consumed && after.failures.None?)
    && (Digits(presses) != c.answer && c.remaining > 1 ==>
          && outcome == Invalid(c.remaining - 1)
          && after.challenges == r.challenges[id := c.(remaining := c.remaining - 1)])
    && (Digits(presses) != c.answer && c.remaining <= 1 ==>
          outcome == LockedNow && id !in after.challenges && after.lock == Some(at + s.lockout))
  }

  /**
   A full entry of presses is acknowledged press by press; the last press succeeds exactly when the
   entry is the expected answer, and otherwise counts one failure and clears the progress or locks.
   */
  lemma FullEntry(r: Redis, s: Settings, id: ChallengeId, presses: seq<nat>, times: seq<Time>, n: nat)
    requires ReadyToPress(r, id, n) && |times| == |presses| == n && 0 < n <= 64
    requires forall i :: 0 <= i < n ==> presses[i] < SYMBOLS && times[i] < r.challenges[id].expiresAt
    ensures var p := PressAll(r, s, id, presses, times);
            && (forall i :: 0 <= i < n - 1 ==> p.outcomes[i] == Continue(presses[i], i + 1, n))
            && Decides(r, s, id, presses, times[n - 1], p.redis, p.outcomes[n - 1])
  {
    PartialEntry(r, s, id, presses[..n - 1], times[..n - 1], n);
    LastPress(r, s, id, presses, times);
    FinalPress(r, s, id, presses, times[n - 1], n);
    hide PressAll, Press, Decides, Digits;
  }

  lemma FinalPress(r: Redis, s: Settings, id: ChallengeId, presses: seq<nat>, at: Time, n: nat)
    requires ReadyToPress(r, id, n) && |presses| == n && 0 < n <= 64 && at < r.challenges[id].expiresAt
    requires forall i :: 0 <= i < n ==> presses[i] < SYMBOLS
    ensures var partial :=
              r.(challenges := r.challenges[id := r.challenges[id].(progress := Digits(presses[..n - 1]))]);
            var seen := Live(partial, id, at);
            var (after, outcome) := Press(partial, s, id, seen, seen, presses[n - 1], at);
            Decides(r, s, id, presses, at, after, outcome)
  {
    var c := r.challenges[id].(progress := Digits(presses[..n - 1]));
    var partial := r.(challenges := r.challenges[id := c]);
    assert Digits(presses) == c.progress + [Digit(presses[n - 1])] && |Digits(presses)| == n;
    assert Live(partial, id, at) == Some(c) && Truncated(Digits(presses)) == Digits(presses);
    hide Digits;
    FullAnswer(partial, s, id, Digits(presses), at);
    assert partial.challenges[id := c.(remaining := c.remaining - 1, progress := "")]
           == r.challenges[id := r.challenges[id].(remaining := c.remaining - 1)];
    hide Verify;
  }

  lemma FullAnswer(r: Redis, s: Settings, id: ChallengeId, answer: string, at: Time)
    requires Live(r, id, at).Some? && r.challenges[id].mode.ButtonSequence? && Truncated(answer) == answer
    ensures var c := r.challenges[id];
            var (after, outcome) := Verify(r, s, id, Some(c), answer, at);
            && (outcome == Success <==> answer == c.answer)
            && (answer == c.answer ==> id !in after.challenges && id in after.consumed && after.failures.None?)
            && (answer != c.answer && c.remaining > 1 ==>
                  outcome == Invalid(c.remaining - 1)
                    && after.challenges == r.challenges[id := c.(remaining := c.remaining - 1, progress := "")])
            && (answer != c.answer && c.remaining <= 1 ==>
                  outcome == LockedNow && id !in after.challenges && after.lock == Some(at + s.lockout))
  {
  }

  lemma LastPress(r: Redis, s: Settings, id: ChallengeId, presses: seq<nat>, times: seq<Time>)
    requires |times| == |presses| > 0
    ensures var n := |presses| - 1;
            var before := PressAll(r, s, id, presses[..n], times[..n]);
            var seen := Live(before.redis, id, times[n]);
            var (after, outcome) := Press(before.redis, s, id, seen, seen, presses[n], times[n]);
            PressAll(r, s, id, presses, times) == Pressed(after, before.outcomes + [outcome])
  {
  }

  /** Pressing the displayed buttons in the displayed order succeeds; any other full entry fails. */
  lemma DisplayedOrderSucceeds(
    r: Redis, s: Settings, id: ChallengeId, m: Material, configured: int, presses: seq<nat>, times: seq<Time>)
    requires m.WellFormed(configured) && |m.choices| == SYMBOLS
    requires ReadyToPress(r, id, |m.target|) && r.challenges[id].answer == m.ExpectedAnswer()
    requires |times| == |presses| == |m.target|
    requires forall i :: 0 <= i < |presses| ==> presses[i] < SYMBOLS && times[i] < r.challenges[id].expiresAt
    ensures var outcomes := PressAll(r, s, id, presses, times).outcomes;
            var n := |presses|;
            && (forall i :: 0 <= i < n - 1 ==> outcomes[i] == Continue(presses[i], i + 1, n))
            && (outcomes[n - 1] == Success <==> forall i :: 0 <= i < n ==> m.choices[presses[i]] == m.target[i])
            && (outcomes[n - 1] != Success ==> outcomes[n - 1].Invalid? || outcomes[n - 1] == LockedNow)
  {
    PermutationsOfSymbols(m.choices);
    FullEntry(r, s, id, presses, times, |presses|);
    hide PressAll;
    EntryMatches(m, presses);
  }

  lemma EntryMatches(m: Material, presses: seq<nat>)
    requires |m.choices| == SYMBOLS && (forall x :: x in m.target ==> x in m.choices) && |presses| == |m.target|
    requires forall i, j :: 0 <= i < j < |m.choices| ==> m.choices[i] != m.choices[j]
    requires forall i :: 0 <= i < |presses| ==> presses[i] < SYMBOLS
    ensures Digits(presses) == m.ExpectedAnswer() <==> forall i :: 0 <= i < |presses| ==>
            m.choices[presses[i]] == m.target[i]
  {
    var answer := m.ExpectedAnswer();
    forall i | 0 <= i < |presses|
      ensures Digits(presses)[i] == answer[i] <==> m.choices[presses[i]] == m.target[i]
    {
      var k := IndexOf(m.choices, m.target[i]);
      DigitsDiffer(presses[i], k);
    }
  }

  lemma DigitsDiffer(a: nat, b: nat)
    requires a < 10 && b < 10
    ensures Digit(a) == Digit(b) <==> a == b
  {
  }
}
