/**
 * The antibiotic-reconstitution sequencing game (app/game.tsx).
 *
 * The player sees the ten canonical steps in a shuffled order and taps them
 * one by one; a tap on the next expected step marks it "used" and appends it
 * to the selected order, any other tap marks it "incorrect" until an 800 ms
 * timer puts it back to "idle".
 *
 * The transitions are specified as functions on a `GameState` value; the
 * screen itself is the class `GameScreen`, whose methods update its fields
 * in place and are proved to agree with those functions.
 */
module Game {

  import opened Common

  // The texts of the ten steps, in the correct order.
  const Step0: string := "Check the medication order and verify the antibiotic name, dose, and diluent"
  const Step1: string := "Perform hand hygiene and gather supplies (vial, diluent, syringe, alcohol swabs)"
  const Step2: string := "Inspect the powdered vial for expiration date, cracks, and discoloration"
  const Step3: string := "Clean the rubber stopper of the vial with an alcohol swab"
  const Step4: string := "Draw the correct volume of diluent into a syringe"
  const Step5: string := "Inject the diluent slowly into the powdered vial"
  const Step6: string := "Gently swirl or roll the vial until the powder is fully dissolved"
  const Step7: string := "Inspect the reconstituted solution for clarity and particulates"
  const Step8: string := "Label the vial with the date, time, concentration, and your initials"
  const Step9: string := "Store the reconstituted antibiotic per manufacturer guidelines"

  /** The single correct order of the steps (`CORRECT_ORDER`). */
  const CorrectOrder: seq<string> := [Step0, Step1, Step2, Step3, Step4, Step5, Step6, Step7, Step8, Step9]

  lemma CorrectOrderDistinct()
    ensures |CorrectOrder| == 10 && Distinct(CorrectOrder)
  {
  }

  // ---------------------------------------------------------------------
  // Shuffling
  // ---------------------------------------------------------------------

  /**
   * The random choices of one shuffle pass: at index i the source draws
   * j = floor(random() * (i + 1)), so 0 <= j <= i. Entry 0 is never used.
   */
  predicate ValidDraws(draws: seq<nat>, n: nat) {
    |draws| == n && forall i :: 0 <= i < n ==> draws[i] <= i
  }

  predicate ValidRounds(rounds: seq<seq<nat>>, n: nat) {
    forall k :: 0 <= k < |rounds| ==> ValidDraws(rounds[k], n)
  }

  /** Exchanges positions i and j (the destructuring swap). */
  function Swap(s: seq<string>, i: nat, j: nat): (r: seq<string>)
    requires i < |s| && j < |s|
    ensures |r| == |s| && r[i] == s[j] && r[j] == s[i]
    ensures forall k :: 0 <= k < |s| && k != i && k != j ==> r[k] == s[k]
  {
    s[i := s[j]][j := s[i]]
  }

  lemma SwapPermutes(s: seq<string>, i: nat, j: nat)
    requires i < |s| && j < |s|
    ensures multiset(Swap(s, i, j)) == multiset(s)
  {
  }

  /** The swaps the loop performs for indices i, i - 1, ..., 1, in that order. */
  function SwapsDown(s: seq<string>, draws: seq<nat>, i: nat): seq<string>
    requires i < |s| && ValidDraws(draws, |s|)
    decreases i
  {
    if i == 0 then s else SwapsDown(Swap(s, i, draws[i]), draws, i - 1)
  }

  /** One complete pass of the swap loop over a copy of `arr`. */
  function FisherYates(arr: seq<string>, draws: seq<nat>): seq<string>
    requires ValidDraws(draws, |arr|)
  {
    if |arr| == 0 then arr else SwapsDown(arr, draws, |arr| - 1)
  }

  predicate IsPermutationOf(r: seq<string>, s: seq<string>) {
    |r| == |s| && multiset(r) == multiset(s)
  }

  lemma {:induction false} SwapsDownPermutes(s: seq<string>, draws: seq<nat>, i: nat)
    requires i < |s| && ValidDraws(draws, |s|)
    ensures IsPermutationOf(SwapsDown(s, draws, i), s)
    decreases i
  {
    if i > 0 {
      SwapPermutes(s, i, draws[i]);
      SwapsDownPermutes(Swap(s, i, draws[i]), draws, i - 1);
    }
  }

  /** A shuffle pass only rearranges: same length, same multiset of steps. */
  lemma FisherYatesPermutes(arr: seq<string>, draws: seq<nat>)
    requires ValidDraws(draws, |arr|)
    ensures IsPermutationOf(FisherYates(arr, draws), arr)
  {
    if |arr| > 0 {
      SwapsDownPermutes(arr, draws, |arr| - 1);
    }
  }

  /**
   * The identity test `shuffled.every((item, idx) => item === arr[idx])`:
   * it holds exactly when the two sequences are equal.
   */
  function SameOrder(shuffled: seq<string>, arr: seq<string>): (r: bool)
    requires |shuffled| == |arr|
    ensures r <==> shuffled == arr
  {
    forall idx :: 0 <= idx < |shuffled| ==> shuffled[idx] == arr[idx]
  }

  /**
   * The swap loop of `shuffleArray` on a fresh copy of `arr`: the argument
   * itself is a value and is left as it was.
   */
  method ShufflePass(arr: seq<string>, draws: seq<nat>) returns (shuffled: seq<string>)
    requires ValidDraws(draws, |arr|)
    ensures shuffled == FisherYates(arr, draws)
    ensures IsPermutationOf(shuffled, arr)
  {
    var a := new string[|arr|](k requires 0 <= k < |arr| => arr[k]);
    var i := |arr| - 1;
    assert a[..] == arr;
    while i > 0
      invariant |arr| == 0 ==> i == -1
      invariant |arr| > 0 ==> 0 <= i < |arr|
      invariant |arr| > 0 ==> SwapsDown(a[..], draws, i) == FisherYates(arr, draws)
    {
      var j := draws[i];
      ghost var before := a[..];
      a[i], a[j] := a[j], a[i];
      assert a[..] == Swap(before, i, j);
      assert SwapsDown(before, draws, i) == SwapsDown(a[..], draws, i - 1);
      i := i - 1;
    }
    shuffled := a[..];
    assert |arr| == 0 ==> shuffled == arr;
    FisherYatesPermutes(arr, draws);
  }

  /**
   * What `shuffleArray` returns when attempt k draws `rounds[k]`: the result
   * of the first attempt that is not the identity order, or None when every
   * supplied attempt gives the identity (the source would keep drawing).
   */
  function Shuffled(arr: seq<string>, rounds: seq<seq<nat>>): Option<seq<string>>
    requires ValidRounds(rounds, |arr|)
    decreases |rounds|
  {
    if |rounds| == 0 then None
    else if FisherYates(arr, rounds[0]) == arr then Shuffled(arr, rounds[1..])
    else Some(FisherYates(arr, rounds[0]))
  }

  /** At least one of the supplied attempts gives an order other than the identity. */
  ghost predicate SomeRoundReorders(arr: seq<string>, rounds: seq<seq<nat>>)
    requires ValidRounds(rounds, |arr|)
  {
    exists k :: 0 <= k < |rounds| && FisherYates(arr, rounds[k]) != arr
  }

  /** The shuffle yields an order exactly when some supplied attempt reorders. */
  lemma {:induction false} ShuffledSomeIff(arr: seq<string>, rounds: seq<seq<nat>>)
    requires ValidRounds(rounds, |arr|)
    ensures Shuffled(arr, rounds).Some? <==> SomeRoundReorders(arr, rounds)
    decreases |rounds|
  {
    if |rounds| > 0 {
      ValidRoundsTail(arr, rounds);
      ShuffledSomeIff(arr, rounds[1..]);
      if SomeRoundReorders(arr, rounds) && FisherYates(arr, rounds[0]) == arr {
        var k :| 0 <= k < |rounds| && FisherYates(arr, rounds[k]) != arr;
        assert rounds[1..][k - 1] == rounds[k];
      }
      if SomeRoundReorders(arr, rounds[1..]) {
        var k :| 0 <= k < |rounds[1..]| && FisherYates(arr, rounds[1..][k]) != arr;
        assert rounds[k + 1] == rounds[1..][k];
      }
    }
  }

  /** Whatever order the shuffle yields is a permutation of its input other than the identity. */
  lemma {:induction false} ShuffledIsProper(arr: seq<string>, rounds: seq<seq<nat>>)
    requires ValidRounds(rounds, |arr|)
    requires Shuffled(arr, rounds).Some?
    ensures IsPermutationOf(Shuffled(arr, rounds).value, arr) && Shuffled(arr, rounds).value != arr
    decreases |rounds|
  {
    ValidRoundsTail(arr, rounds);
    if FisherYates(arr, rounds[0]) == arr {
      ShuffledIsProper(arr, rounds[1..]);
    } else {
      FisherYatesPermutes(arr, rounds[0]);
    }
  }

  /** The order returned is the one of the first attempt that reorders. */
  lemma {:induction false} ShuffledIsFirstReordering(arr: seq<string>, rounds: seq<seq<nat>>)
    requires ValidRounds(rounds, |arr|)
    requires Shuffled(arr, rounds).Some?
    ensures exists k :: 0 <= k < |rounds| && Shuffled(arr, rounds).value == FisherYates(arr, rounds[k])
                        && forall k' :: 0 <= k' < k ==> FisherYates(arr, rounds[k']) == arr
    decreases |rounds|
  {
    if FisherYates(arr, rounds[0]) == arr {
      ValidRoundsTail(arr, rounds);
      ShuffledIsFirstReordering(arr, rounds[1..]);
      var tail := rounds[1..];
      var k :| 0 <= k < |tail| && Shuffled(arr, tail).value == FisherYates(arr, tail[k])
               && forall k' :: 0 <= k' < k ==> FisherYates(arr, tail[k']) == arr;
      assert rounds[k + 1] == tail[k];
      forall k' | 0 <= k' < k + 1 ensures FisherYates(arr, rounds[k']) == arr {
        if k' > 0 {
          assert rounds[k'] == tail[k' - 1];
        }
      }
    } else {
      assert Shuffled(arr, rounds).value == FisherYates(arr, rounds[0]);
    }
  }

  lemma ValidRoundsTail(arr: seq<string>, rounds: seq<seq<nat>>)
    requires |rounds| > 0 && ValidRounds(rounds, |arr|)
    ensures ValidDraws(rounds[0], |arr|) && ValidRounds(rounds[1..], |arr|)
  {
    forall k | 0 <= k < |rounds[1..]| ensures ValidDraws(rounds[1..][k], |arr|) {
      assert rounds[1..][k] == rounds[k + 1];
    }
  }

  /**
   * `shuffleArray`: shuffle a copy, and start over when the result is the
   * identity order. Each element of `rounds` holds the draws of one attempt.
   */
  method ShuffleArray(arr: seq<string>, rounds: seq<seq<nat>>) returns (r: Option<seq<string>>)
    requires ValidRounds(rounds, |arr|)
    ensures r == Shuffled(arr, rounds)
    ensures r.Some? ==> IsPermutationOf(r.value, arr) && r.value != arr
    decreases |rounds|
  {
    if |rounds| == 0 {
      return None;
    }
    ValidRoundsTail(arr, rounds);
    var shuffled := ShufflePass(arr, rounds[0]);
    if SameOrder(shuffled, arr) {
      r := ShuffleArray(arr, rounds[1..]);
    } else {
      r := Some(shuffled);
      ShuffledIsProper(arr, rounds);
    }
  }

  /** Draws that swap only the last element with the first, all others in place. */
  function SwapLastWithFirst(n: nat): (draws: seq<nat>)
    requires n >= 2
    ensures ValidDraws(draws, n)
  {
    seq(n, i => if i == n - 1 then 0 else i)
  }

  lemma {:induction false} SwapsDownFixed(s: seq<string>, draws: seq<nat>, i: nat)
    requires i < |s| && ValidDraws(draws, |s|)
    requires forall k :: 0 < k <= i ==> draws[k] == k
    ensures SwapsDown(s, draws, i) == s
    decreases i
  {
    if i > 0 {
      assert Swap(s, i, draws[i]) == s;
      SwapsDownFixed(s, draws, i - 1);
    }
  }

  /**
   * The rejection loop can stop: when the first and last steps differ,
   * some draws give an order other than the identity.
   */
  lemma ShuffleCanSucceed(arr: seq<string>)
    requires |arr| >= 2 && arr[0] != arr[|arr| - 1]
    ensures exists draws :: ValidDraws(draws, |arr|) && FisherYates(arr, draws) != arr
  {
    var n := |arr|;
    var draws := SwapLastWithFirst(n);
    var once := Swap(arr, n - 1, 0);
    SwapsDownFixed(once, draws, n - 2);
    assert FisherYates(arr, draws)[0] == arr[n - 1];
  }

  /** Some choice of draws reorders the canonical steps, so a shuffle of them can stop. */
  lemma CorrectOrderCanBeShuffled()
    ensures exists rounds :: ValidRounds(rounds, |CorrectOrder|) && SomeRoundReorders(CorrectOrder, rounds)
  {
    CorrectOrderDistinct();
    ShuffleCanSucceed(CorrectOrder);
    var draws :| ValidDraws(draws, |CorrectOrder|) && FisherYates(CorrectOrder, draws) != CorrectOrder;
    var rounds := [draws];
    assert FisherYates(CorrectOrder, rounds[0]) != CorrectOrder;
    assert ValidRounds(rounds, |CorrectOrder|) && SomeRoundReorders(CorrectOrder, rounds);
  }

  lemma {:induction false} SwapsDownUniform(s: seq<string>, draws: seq<nat>, i: nat)
    requires i < |s| && ValidDraws(draws, |s|)
    requires forall k :: 0 <= k < |s| ==> s[k] == s[0]
    ensures SwapsDown(s, draws, i) == s
    decreases i
  {
    if i > 0 {
      assert Swap(s, i, draws[i]) == s;
      SwapsDownUniform(s, draws, i - 1);
    }
  }

  /**
   * The rejection loop cannot stop on a sequence whose elements are all
   * equal (including every sequence of length 0 or 1): every pass gives the
   * identity.
   */
  lemma ShuffleOfUniformIsIdentity(arr: seq<string>, draws: seq<nat>)
    requires ValidDraws(draws, |arr|)
    requires forall k :: 0 <= k < |arr| ==> arr[k] == arr[0]
    ensures FisherYates(arr, draws) == arr
  {
    if |arr| > 0 {
      SwapsDownUniform(arr, draws, |arr| - 1);
    }
  }

  // ---------------------------------------------------------------------
  // Game state and its transitions
  // ---------------------------------------------------------------------

  datatype Status = Idle | Correct | Incorrect | Used

  datatype GameState = GameState(
    shuffledSteps: seq<string>,
    selectedOrder: seq<string>,
    stepStatuses: map<string, Status>,
    score: int,
    gameComplete: bool)

  /** The status an option is shown with: a missing entry reads as idle. */
  function StatusOf(statuses: map<string, Status>, step: string): Status {
    if step in statuses then statuses[step] else Idle
  }

  /**
   * `CORRECT_ORDER[currentStep]`, which is undefined past the end. The
   * expected step sits at no other position of the canonical order, so a
   * step already selected is never expected again.
   */
  function Expected(currentStep: nat): (r: Option<string>)
    ensures r.Some? ==> forall k :: 0 <= k < |CorrectOrder| && k != currentStep ==> CorrectOrder[k] != r.value
  {
    CorrectOrderDistinct();
    if currentStep < |CorrectOrder| then Some(CorrectOrder[currentStep]) else None
  }

  /** A shuffle as the game accepts it: a permutation that is not the identity. */
  predicate IsShuffle(options: seq<string>) {
    IsPermutationOf(options, CorrectOrder) && options != CorrectOrder
  }

  /** The state of a new round (initial state, and the result of a reset). */
  function NewGame(options: seq<string>): (r: GameState)
    ensures r.shuffledSteps == options && r.selectedOrder == [] && r.score == 0 && !r.gameComplete
    ensures forall step :: StatusOf(r.stepStatuses, step) == Idle
  {
    GameState(options, [], map[], 0, false)
  }

  /** `handleStepPress`: validate a tap against the next expected step. */
  function Press(s: GameState, step: string): (r: GameState)
    ensures s.gameComplete ==> r == s
    ensures r.shuffledSteps == s.shuffledSteps
    ensures forall other :: other != step ==> StatusOf(r.stepStatuses, other) == StatusOf(s.stepStatuses, other)
    ensures !s.gameComplete && Expected(|s.selectedOrder|) == Some(step) ==>
              && StatusOf(r.stepStatuses, step) == Used
              && r.selectedOrder == s.selectedOrder + [step]
              && r.score == s.score + 1
              && r.gameComplete == (|r.selectedOrder| == |CorrectOrder| || s.gameComplete)
    ensures !s.gameComplete && Expected(|s.selectedOrder|) != Some(step) ==>
              && StatusOf(r.stepStatuses, step) == Incorrect
              && r.selectedOrder == s.selectedOrder
              && r.score == s.score
              && r.gameComplete == s.gameComplete
  {
    if s.gameComplete then s
    else
      var currentStep := |s.selectedOrder|;
      if Expected(currentStep) == Some(step) then
        s.(stepStatuses := s.stepStatuses[step := Used],
           selectedOrder := s.selectedOrder + [step],
           score := s.score + 1,
           gameComplete := if currentStep + 1 == |CorrectOrder| then true else s.gameComplete)
      else
        s.(stepStatuses := s.stepStatuses[step := Incorrect])
  }

  /** A tap on an option: the option ignores taps while it is "used". */
  function PressOption(s: GameState, step: string): (r: GameState)
    ensures StatusOf(s.stepStatuses, step) == Used ==> r == s
    ensures StatusOf(s.stepStatuses, step) != Used ==> r == Press(s, step)
  {
    if StatusOf(s.stepStatuses, step) == Used then s else Press(s, step)
  }

  /** The 800 ms timer callback: the step goes back to idle, whatever its status. */
  function Revert(s: GameState, step: string): (r: GameState)
    ensures StatusOf(r.stepStatuses, step) == Idle
    ensures forall other :: other != step ==> StatusOf(r.stepStatuses, other) == StatusOf(s.stepStatuses, other)
    ensures r.shuffledSteps == s.shuffledSteps && r.selectedOrder == s.selectedOrder
    ensures r.score == s.score && r.gameComplete == s.gameComplete
  {
    s.(stepStatuses := s.stepStatuses[step := Idle])
  }

  /**
   * The invariant of every reachable state: the selected order is a prefix
   * of the canonical order, the score is its length, the game is complete
   * exactly when all steps are selected, no status is ever "correct", and a
   * "used" option is one that was selected.
   */
  ghost predicate Valid(s: GameState) {
    && s.selectedOrder <= CorrectOrder
    && s.score == |s.selectedOrder|
    && s.gameComplete == (|s.selectedOrder| == |CorrectOrder|)
    && (forall step :: step in s.stepStatuses ==> s.stepStatuses[step] != Correct)
    && (forall step :: StatusOf(s.stepStatuses, step) == Used ==> step in s.selectedOrder)
  }

  datatype Event = Tap(step: string) | TimerFired(step: string) | ResetTo(options: seq<string>)

  function Apply(s: GameState, e: Event): GameState {
    match e
    case Tap(step) => PressOption(s, step)
    case TimerFired(step) => Revert(s, step)
    case ResetTo(options) => NewGame(options)
  }

  /** Apply events one after the other. */
  function Run(s: GameState, events: seq<Event>): GameState
    decreases |events|
  {
    if events == [] then s else Run(Apply(s, events[0]), events[1..])
  }

  /** Every reset installs a fresh shuffle (what `shuffleArray` returns). */
  ghost predicate ResetsAreShuffles(events: seq<Event>) {
    forall k :: 0 <= k < |events| && events[k].ResetTo? ==> IsShuffle(events[k].options)
  }

  lemma NewGameValid(options: seq<string>)
    ensures Valid(NewGame(options))
  {
  }

  lemma PressPreservesValid(s: GameState, step: string)
    requires Valid(s)
    ensures Valid(Press(s, step))
  {
    var r := Press(s, step);
    if !s.gameComplete && Expected(|s.selectedOrder|) == Some(step) {
      var n := |s.selectedOrder|;
      assert r.selectedOrder == CorrectOrder[..n] + [CorrectOrder[n]] == CorrectOrder[..n + 1];
    }
  }

  lemma RevertPreservesValid(s: GameState, step: string)
    requires Valid(s)
    ensures Valid(Revert(s, step))
  {
  }

  lemma ApplyPreservesValid(s: GameState, e: Event)
    requires Valid(s)
    ensures Valid(Apply(s, e))
  {
    match e
    case Tap(step) =>
      if StatusOf(s.stepStatuses, step) != Used {
        PressPreservesValid(s, step);
      }
    case TimerFired(step) =>
      RevertPreservesValid(s, step);
    case ResetTo(options) =>
      NewGameValid(options);
  }

  /** The invariant holds after any sequence of taps, timer callbacks and resets. */
  lemma {:induction false} RunPreservesValid(s: GameState, events: seq<Event>)
    requires Valid(s)
    ensures Valid(Run(s, events))
    decreases |events|
  {
    if events != [] {
      ApplyPreservesValid(s, events[0]);
      RunPreservesValid(Apply(s, events[0]), events[1..]);
    }
  }

  /** The options on screen are the initial ones or those installed by some reset. */
  lemma {:induction false} RunOptionsOrigin(s: GameState, events: seq<Event>)
    ensures var o := Run(s, events).shuffledSteps;
            o == s.shuffledSteps || exists k :: 0 <= k < |events| && events[k].ResetTo? && o == events[k].options
    decreases |events|
  {
    if events != [] {
      var next := Apply(s, events[0]);
      RunOptionsOrigin(next, events[1..]);
      var o := Run(s, events).shuffledSteps;
      if o != next.shuffledSteps {
        var k :| 0 <= k < |events[1..]| && events[1..][k].ResetTo? && o == events[1..][k].options;
        assert events[k + 1] == events[1..][k];
      } else if o != s.shuffledSteps {
        assert events[0].ResetTo? && o == events[0].options;
      }
    }
  }

  /**
   * The options on screen are always a proper shuffle: taps and timer
   * callbacks leave them alone, and a reset installs a new shuffle.
   */
  lemma RunKeepsShuffle(s: GameState, events: seq<Event>)
    requires IsShuffle(s.shuffledSteps) && ResetsAreShuffles(events)
    ensures IsShuffle(Run(s, events).shuffledSteps)
  {
    RunOptionsOrigin(s, events);
  }

  /** A tap on a "used" option changes nothing: status, order, score and completion stay. */
  lemma UsedTapIgnored(s: GameState, step: string)
    requires StatusOf(s.stepStatuses, step) == Used
    ensures Apply(s, Tap(step)) == s
  {
  }

  /**
   * Without the option's guard, a tap on a selected step in a running game
   * would mark it "incorrect": the guard is what keeps "used" absorbing.
   */
  lemma UnguardedUsedTapWouldMarkIncorrect(s: GameState, step: string)
    requires Valid(s) && !s.gameComplete
    requires StatusOf(s.stepStatuses, step) == Used
    ensures StatusOf(Press(s, step).stepStatuses, step) == Incorrect
  {
    var n := |s.selectedOrder|;
    var i :| 0 <= i < n && s.selectedOrder[i] == step;
    assert CorrectOrder[i] == step;
  }

  function Taps(steps: seq<string>): (events: seq<Event>)
    ensures |events| == |steps|
    ensures forall k :: 0 <= k < |steps| ==> events[k] == Tap(steps[k])
  {
    seq(|steps|, k requires 0 <= k < |steps| => Tap(steps[k]))
  }

  /**
   * Tapping the remaining canonical steps, in order, from a state where the
   * first k are selected finishes the game with full score and every step used.
   */
  lemma {:induction false} CanonicalTapsComplete(s: GameState, k: nat)
    requires k <= |CorrectOrder|
    requires s.selectedOrder == CorrectOrder[..k] && s.score == k
    requires s.gameComplete == (k == |CorrectOrder|)
    requires forall i :: 0 <= i < k ==> StatusOf(s.stepStatuses, CorrectOrder[i]) == Used
    requires forall i :: k <= i < |CorrectOrder| ==> StatusOf(s.stepStatuses, CorrectOrder[i]) != Used
    ensures var r := Run(s, Taps(CorrectOrder[k..]));
            r.gameComplete && r.score == |CorrectOrder| && r.selectedOrder == CorrectOrder
            && forall i :: 0 <= i < |CorrectOrder| ==> StatusOf(r.stepStatuses, CorrectOrder[i]) == Used
    decreases |CorrectOrder| - k
  {
    CorrectOrderDistinct();
    var events := Taps(CorrectOrder[k..]);
    if k == |CorrectOrder| {
      assert events == [];
    } else {
      var step := CorrectOrder[k];
      var next := Apply(s, events[0]);
      assert events[0] == Tap(step);
      assert next == Press(s, step);
      assert next.selectedOrder == CorrectOrder[..k + 1];
      forall i | k + 1 <= i < |CorrectOrder|
        ensures StatusOf(next.stepStatuses, CorrectOrder[i]) != Used
      {
        assert CorrectOrder[i] != step;
      }
      assert events[1..] == Taps(CorrectOrder[k + 1..]);
      CanonicalTapsComplete(next, k + 1);
    }
  }

  /** From a new game, tapping the steps in canonical order completes it. */
  lemma NewGameCanonicalPlay(options: seq<string>)
    ensures var r := Run(NewGame(options), Taps(CorrectOrder));
            r.gameComplete && r.score == |CorrectOrder|
            && forall i :: 0 <= i < |CorrectOrder| ==> StatusOf(r.stepStatuses, CorrectOrder[i]) == Used
  {
    assert CorrectOrder[0..] == CorrectOrder;
    assert CorrectOrder[..0] == [];
    CanonicalTapsComplete(NewGame(options), 0);
  }

  /**
   * A wrong first tap marks only that step "incorrect" and leaves order and
   * score alone; the timer then puts it back to idle.
   */
  lemma WrongFirstTapReverts(options: seq<string>, step: string)
    requires step != CorrectOrder[0]
    ensures var s1 := Run(NewGame(options), [Tap(step)]);
            StatusOf(s1.stepStatuses, step) == Incorrect && s1.selectedOrder == [] && s1.score == 0
    ensures var s2 := Run(NewGame(options), [Tap(step), TimerFired(step)]);
            StatusOf(s2.stepStatuses, step) == Idle && s2.selectedOrder == [] && s2.score == 0
  {
    var s0 := NewGame(options);
    var s1 := Apply(s0, Tap(step));
    assert Run(s0, [Tap(step)]) == Run(s1, []) == s1;
    assert [Tap(step), TimerFired(step)][1..] == [TimerFired(step)];
    assert Run(s0, [Tap(step), TimerFired(step)]) == Run(s1, [TimerFired(step)]);
    assert Run(s1, [TimerFired(step)]) == Run(Revert(s1, step), []);
  }

  /**
   * The timer callback is not tied to the tap that scheduled it: a step
   * tapped wrongly and then rightly within the delay is selected, yet the
   * earlier timer shows it as idle again.
   */
  lemma StaleRevertShowsSelectedStepIdle(options: seq<string>)
    ensures var x := CorrectOrder[1];
            var events := [Tap(x), Tap(CorrectOrder[0]), Tap(x), TimerFired(x)];
            var r := Run(NewGame(options), events);
            x in r.selectedOrder && StatusOf(r.stepStatuses, x) == Idle
  {
    CorrectOrderDistinct();
    var x := CorrectOrder[1];
    var events := [Tap(x), Tap(CorrectOrder[0]), Tap(x), TimerFired(x)];
    var s0 := NewGame(options);
    var s1 := Apply(s0, events[0]);
    var s2 := Apply(s1, events[1]);
    var s3 := Apply(s2, events[2]);
    var s4 := Apply(s3, events[3]);
    assert s3.selectedOrder == [CorrectOrder[0], x];
    assert Run(s0, events) == Run(s1, events[1..]);
    assert Run(s1, events[1..]) == Run(s2, events[2..]);
    assert Run(s2, events[2..]) == Run(s3, events[3..]);
    assert Run(s3, events[3..]) == Run(s4, events[4..]);
    assert events[4..] == [];
  }

  /** `shuffleArray(CORRECT_ORDER)`, as the screen calls it. */
  method ShuffleSteps(rounds: seq<seq<nat>>) returns (options: seq<string>)
    requires ValidRounds(rounds, |CorrectOrder|)
    requires SomeRoundReorders(CorrectOrder, rounds)
    ensures Shuffled(CorrectOrder, rounds) == Some(options)
    ensures IsShuffle(options)
  {
    var shuffled := ShuffleArray(CorrectOrder, rounds);
    ShuffledSomeIff(CorrectOrder, rounds);
    options := shuffled.value;
  }

  // ---------------------------------------------------------------------
  // The screen
  // ---------------------------------------------------------------------

  /** `GameScreen`: the React state hooks become fields updated in place. */
  class GameScreen {
    var shuffledSteps: seq<string>
    var selectedOrder: seq<string>
    var stepStatuses: map<string, Status>
    var score: int
    var gameComplete: bool

    function State(): GameState
      reads this
    {
      GameState(shuffledSteps, selectedOrder, stepStatuses, score, gameComplete)
    }

    /** Screen activation: shuffle, nothing selected, all idle. */
    constructor(rounds: seq<seq<nat>>)
      requires ValidRounds(rounds, |CorrectOrder|)
      requires SomeRoundReorders(CorrectOrder, rounds)
      ensures Shuffled(CorrectOrder, rounds) == Some(shuffledSteps)
      ensures State() == NewGame(shuffledSteps) && IsShuffle(shuffledSteps)
      ensures Valid(State())
    {
      var options := ShuffleSteps(rounds);
      new;
      StartRound(options);
    }

    /** `handleStepPress`. */
    method HandleStepPress(step: string)
      modifies this
      ensures State() == Press(old(State()), step)
      ensures Valid(old(State())) ==> Valid(State())
    {
      ghost var was := State();
      if Valid(was) {
        PressPreservesValid(was, step);
      }
      if gameComplete {
        return;
      }
      var currentStep := |selectedOrder|;
      var isCorrect := currentStep < |CorrectOrder| && step == CorrectOrder[currentStep];
      if isCorrect {
        stepStatuses := stepStatuses[step := Used];
        selectedOrder := selectedOrder + [step];
        score := score + 1;
        if currentStep + 1 == |CorrectOrder| {
          gameComplete := true;
        }
      } else {
        stepStatuses := stepStatuses[step := Incorrect];
      }
    }

    /** `StepOption.handlePress`: taps on a "used" option are dropped. */
    method HandlePress(step: string)
      modifies this
      ensures State() == PressOption(old(State()), step)
      ensures Valid(old(State())) ==> Valid(State())
    {
      if StatusOf(stepStatuses, step) == Used {
        return;
      }
      HandleStepPress(step);
    }

    /** The `setTimeout` callback scheduled by a wrong tap. */
    method RevertToIdle(step: string)
      modifies this
      ensures State() == Revert(old(State()), step)
      ensures Valid(old(State())) ==> Valid(State())
    {
      ghost var was := State();
      if Valid(was) {
        RevertPreservesValid(was, step);
      }
      stepStatuses := stepStatuses[step := Idle];
    }

    /** `handleReset`: a fresh shuffle and everything else back to the start. */
    method HandleReset(rounds: seq<seq<nat>>)
      requires ValidRounds(rounds, |CorrectOrder|)
      requires SomeRoundReorders(CorrectOrder, rounds)
      modifies this
      ensures Shuffled(CorrectOrder, rounds) == Some(shuffledSteps)
      ensures State() == NewGame(shuffledSteps) && IsShuffle(shuffledSteps)
      ensures Valid(State())
    {
      var options := ShuffleSteps(rounds);
      StartRound(options);
    }

    /** The state updates of `handleReset`, given the new shuffle. */
    method StartRound(options: seq<string>)
      modifies this
      ensures State() == NewGame(options) && Valid(State())
    {
      shuffledSteps := options;
      selectedOrder := [];
      stepStatuses := map[];
      score := 0;
      gameComplete := false;
      NewGameValid(options);
    }
  }
}
