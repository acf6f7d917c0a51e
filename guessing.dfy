/**
 * The console number-guessing game: a `Logic` object holds a secret number
 * in [0, 100), the player's latest guess and a guess counter; the game loop
 * reads guesses until one matches the secret.
 *
 * The random secret is a constructor parameter, the guess read from the
 * console is a method parameter, and each "low"/"high" message is returned
 * as a `Verdict`. Java's 32-bit `int` is `Int32`, with its wrap-around.
 */
module NumberGuessing {

  newtype Int32 = x: int | -0x8000_0000 <= x < 0x8000_0000

  const MinInt32: Int32 := -0x8000_0000
  const MaxInt32: Int32 := 0x7fff_ffff
  const TwoTo32: int := 0x1_0000_0000

  /** The Java `int` that an unbounded integer wraps to: the one congruent to it modulo 2^32. */
  function Wrap(n: int): (r: Int32)
    ensures (r as int - n) % TwoTo32 == 0
    ensures MinInt32 as int <= n <= MaxInt32 as int ==> r as int == n
  {
    ((n + 0x8000_0000) % TwoTo32 - 0x8000_0000) as Int32
  }

  /** `x++` on a Java `int`: the largest value wraps to the smallest. */
  function Increment(x: Int32): (r: Int32)
    ensures r == Wrap(x as int + 1)
  {
    if x == MaxInt32 then MinInt32 else x + 1
  }

  /** Counting up from 0 by `Increment` keeps the counter at the wrapped count. */
  lemma IncrementCounts(n: int)
    ensures Increment(Wrap(n)) == Wrap(n + 1)
  {
  }

  /** The message a guess earns: right, too low or too high. */
  datatype Verdict = Equal | Low | High

  /** Every guess is classified as exactly one of equal, low and high. */
  function Classify(guess: Int32, secret: Int32): (v: Verdict)
    ensures v == Equal <==> guess == secret
    ensures v == Low <==> guess < secret
    ensures v == High <==> guess > secret
  {
    if guess == secret then Equal
    else if guess < secret then Low
    else High
  }

  class Logic {
    var userInput: Int32
    var computerInput: Int32
    var noOfGuess: Int32

    /** `Logic()`: the secret (drawn by `nextInt(100)`) is in [0, 100) and no guess is counted yet. */
    constructor (secret: Int32)
      requires 0 <= secret < 100
      ensures computerInput == secret && 0 <= computerInput < 100
      ensures noOfGuess == 0 && userInput == 0
    {
      computerInput := secret;
      userInput := 0;
      noOfGuess := 0;
    }

    /** `noOfGuess()` */
    method NoOfGuess() returns (n: Int32)
      ensures n == noOfGuess
    {
      n := noOfGuess;
    }

    /** `getNo_OfGuess()` */
    method GetNoOfGuess() returns (n: Int32)
      ensures n == noOfGuess
    {
      n := noOfGuess;
    }

    /** `setNo_OfGuess(n)` */
    method SetNoOfGuess(n: Int32)
      modifies this`noOfGuess
      ensures noOfGuess == n
    {
      noOfGuess := n;
    }

    /** `takeUserInput()`, with the number read from the console passed in. */
    method TakeUserInput(guess: Int32)
      modifies this`userInput
      ensures userInput == guess
    {
      userInput := guess;
    }

    /**
     * `isCorrectNo()`: counts the guess whatever its outcome, reports it as
     * equal, low or high, and answers true exactly on a match. The guess and
     * the secret are left as they were.
     */
    method IsCorrectNo() returns (correct: bool, verdict: Verdict)
      modifies this`noOfGuess
      ensures noOfGuess == Increment(old(noOfGuess))
      ensures userInput == old(userInput) && computerInput == old(computerInput)
      ensures verdict == Classify(userInput, computerInput)
      ensures correct <==> userInput == computerInput
    {
      noOfGuess := Increment(noOfGuess);
      if userInput == computerInput {
        return true, Equal;
      } else if userInput < computerInput {
        verdict := Low;
      } else {
        // the source tests `userInput > computerInput` here, which always holds
        assert userInput > computerInput;
        verdict := High;
      }
      correct := false;
    }
  }

  /** After `setNo_OfGuess(n)`, both counter getters answer `n`. */
  method SetThenRead(logic: Logic, n: Int32) returns (viaNoOfGuess: Int32, viaGetter: Int32)
    modifies logic
    ensures viaNoOfGuess == n && viaGetter == n
  {
    logic.SetNoOfGuess(n);
    viaNoOfGuess := logic.NoOfGuess();
    viaGetter := logic.GetNoOfGuess();
  }

  /** The number of guesses before the first one equal to `secret` (|guesses| if none is). */
  function FirstMatch(guesses: seq<Int32>, secret: Int32): (k: nat)
    ensures k <= |guesses|
    ensures k < |guesses| ==> guesses[k] == secret
    ensures forall j :: 0 <= j < k ==> guesses[j] != secret
  {
    if guesses == [] || guesses[0] == secret then 0 else 1 + FirstMatch(guesses[1..], secret)
  }

  /**
   * `main`: read guesses until `isCorrectNo` answers true. The console input
   * is the sequence `inputs`; if it runs out first (where `Scanner` would
   * throw), `won` is false. On exit the last guess read equals the secret,
   * the counter equals the (wrapped) number of guesses read, and `verdicts`
   * holds the message each guess earned.
   */
  method PlayGame(secret: Int32, inputs: seq<Int32>) returns (won: bool, guesses: nat, counter: Int32, verdicts: seq<Verdict>)
    requires 0 <= secret < 100
    ensures won <==> secret in inputs
    ensures won ==> guesses == FirstMatch(inputs, secret) + 1 && inputs[guesses - 1] == secret
    ensures !won ==> guesses == |inputs|
    ensures counter == Wrap(guesses)
    ensures |verdicts| == guesses
    ensures forall j :: 0 <= j < guesses ==> verdicts[j] == Classify(inputs[j], secret)
  {
    var logic := new Logic(secret);
    var b := false;
    var i := 0;
    verdicts := [];
    while !b && i < |inputs|
      invariant 0 <= i <= |inputs|
      invariant logic.computerInput == secret
      invariant logic.noOfGuess == Wrap(i)
      invariant b ==> i >= 1 && inputs[i - 1] == secret
      invariant forall j :: 0 <= j < (if b then i - 1 else i) ==> inputs[j] != secret
      invariant |verdicts| == i
      invariant forall j :: 0 <= j < i ==> verdicts[j] == Classify(inputs[j], secret)
      decreases |inputs| - i
    {
      logic.TakeUserInput(inputs[i]);
      var verdict;
      IncrementCounts(i);
      b, verdict := logic.IsCorrectNo();
      verdicts := verdicts + [verdict];
      i := i + 1;
    }
    won, guesses := b, i;
    counter := logic.GetNoOfGuess();
  }
}
