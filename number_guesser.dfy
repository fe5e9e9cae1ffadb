/** The number-guessing game (src/app/game/game2/page.tsx). The page's state
    cells become the fields of `Guesser`; `startNewGame` and `handleGuess` are
    its methods. `Math.random()` is the parameter `random`. */
module NumberGuesser {
  import opened Seqs
  import opened Text

  /** The message line, by kind. */
  datatype Message =
    | Prompt                  // "Guess a number between 1 and 100!"
    | InvalidNumber           // "Please enter a valid number!"
    | Won(attempts: nat)      // "You won! Found it in N attempts!"
    | TooLow                  // "Too low! Try a higher number."
    | TooHigh                 // "Too high! Try a lower number."

  /** `Math.floor(random * 100) + 1`. */
  function TargetFor(random: real): (target: int)
    requires 0.0 <= random < 1.0
    ensures 1 <= target <= 100
  {
    (random * 100.0).Floor + 1
  }

  class Guesser {
    var targetNumber: int
    var guess: string
    var attempts: nat
    var message: Message
    var gameWon: bool

    ghost predicate Valid()
      reads this
    {
      1 <= targetNumber <= 100
    }

    /** Mounting the page: the initial state cells, then the effect that calls
        `startNewGame`. */
    constructor (random: real)
      requires 0.0 <= random < 1.0
      ensures Valid()
      ensures targetNumber == TargetFor(random)
      ensures guess == "" && attempts == 0 && message == Prompt && !gameWon
    {
      targetNumber := TargetFor(random);
      guess := "";
      attempts := 0;
      message := Prompt;
      gameWon := false;
    }

    /** `startNewGame`: a fresh target in 1..100 and a cleared board. */
    method StartNewGame(random: real)
      requires 0.0 <= random < 1.0
      modifies this
      ensures Valid()
      ensures targetNumber == TargetFor(random)
      ensures guess == "" && attempts == 0 && message == Prompt && !gameWon
    {
      targetNumber := TargetFor(random);
      guess := "";
      attempts := 0;
      message := Prompt;
      gameWon := false;
    }

    /** The input's `onChange`: the text typed so far. */
    method SetGuess(text: string)
      modifies this`guess
      ensures guess == text
    {
      guess := text;
    }

    /** `handleGuess`: an unparsable guess only changes the message; otherwise
        the attempt is counted and the guess compared with the target. */
    method HandleGuess()
      requires Valid()
      modifies this`attempts, this`message, this`gameWon
      ensures Valid()
      ensures ParseInt(guess).None? ==>
        attempts == old(attempts) && gameWon == old(gameWon) && message == InvalidNumber
      ensures ParseInt(guess).Some? ==>
        var g := ParseInt(guess).value;
        attempts == old(attempts) + 1 &&
        (g == targetNumber ==> gameWon && message == Won(attempts)) &&
        (g < targetNumber ==> gameWon == old(gameWon) && message == TooLow) &&
        (g > targetNumber ==> gameWon == old(gameWon) && message == TooHigh)
    {
      var guessNum := ParseInt(guess);
      if guessNum.None? {
        message := InvalidNumber;
        return;
      }
      var newAttempts := attempts + 1;
      attempts := newAttempts;
      if guessNum.value == targetNumber {
        message := Won(newAttempts);
        gameWon := true;
      } else if guessNum.value < targetNumber {
        message := TooLow;
      } else {
        message := TooHigh;
      }
    }
  }

  /** The text a player types for the number `n`: its decimal form, which
      `parseInt` reads back as `n`. */
  method TypeNumber(n: int) returns (text: string)
    ensures ParseInt(text) == Some(n)
  {
    text := ShowInt(n);
    ParseShowRoundTrip(n);
  }

  /** Typing the number `n` into the input and pressing "Guess": the attempt is
      counted and the message says how `n` compares with the target. */
  method TypeAndGuess(game: Guesser, n: int)
    requires game.Valid()
    modifies game
    ensures game.Valid() && game.targetNumber == old(game.targetNumber)
    ensures game.attempts == old(game.attempts) + 1
    ensures n == game.targetNumber ==> game.gameWon && game.message == Won(game.attempts)
    ensures n < game.targetNumber ==> game.gameWon == old(game.gameWon) && game.message == TooLow
    ensures n > game.targetNumber ==> game.gameWon == old(game.gameWon) && game.message == TooHigh
  {
    var text := TypeNumber(n);
    game.SetGuess(text);
    game.HandleGuess();
  }

  /** Typing the decimal form of the target wins on that guess; a guess one
      below first gets the "too low" hint and leaves the game open. */
  method GuessingScenario(random: real) returns (won: bool, lowFirst: bool, attempts: nat)
    requires 0.0 <= random < 1.0
    ensures won && lowFirst && attempts == 2
  {
    var game := new Guesser(random);
    TypeAndGuess(game, game.targetNumber - 1);
    lowFirst := game.message == TooLow && !game.gameWon;
    TypeAndGuess(game, game.targetNumber);
    won := game.gameWon && game.message == Won(2);
    attempts := game.attempts;
  }
}
