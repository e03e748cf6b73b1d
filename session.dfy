/** The round and session state of the quick-choice page (Mode2.tsx:86-237).

    The React component keeps its state in `useState` cells; here they are the
    fields of a class, and each handler is a method that updates them.
    A `setX(prev => f(prev))` is the assignment `x := f(x)`. The one-second
    interval timer becomes the method `Tick`, called once per elapsed second.
    The draws of Math.random() and the current day are parameters of every
    method that builds a new series. The insert into the remote table is left
    out; whether it threw is the parameter `saveThrew`. */
module Session {
  import opened Candles
  import opened Outcome

  datatype Option<T> = None | Some(value: T)

  /** The page's phases (Mode2.tsx:17). */
  datatype GameState = Waiting | Playing | Result | Finished

  /** Rounds per session (Mode2.tsx:93). */
  const TotalRounds: nat := 10
  /** Seconds per round (Mode2.tsx:91, 118). */
  const RoundSeconds: nat := 10
  /** Bars generated per round (Mode2.tsx:110). */
  const SeriesLength: nat := 30
  /** Bars withheld until the answer (`slice(0, -5)`, Mode2.tsx:114). */
  const HiddenBars: nat := 5
  const ShownBars: nat := SeriesLength - HiddenBars

  /** `part / whole * 100` is a percentage when `0 <= part <= whole`. */
  lemma PercentageBound(part: real, whole: real)
    requires 0.0 <= part <= whole && whole > 0.0
    ensures 0.0 <= part / whole * 100.0 <= 100.0
  {
  }

  class Mode2 {
    var gameState: GameState
    var countdown: int
    var currentRound: int
    /** The whole series of the round. */
    var candlestickData: seq<Candlestick>
    /** The part of the series the chart shows. */
    var displayData: seq<Candlestick>
    var userChoice: Option<Direction>
    var actualResult: Option<Direction>
    /** The score of the current round. */
    var score: real
    var totalScore: real
    var correctAnswers: nat
    var showNextButton: bool
    /** Saving the round failed and the page's error is set (Mode2.tsx:205);
        the page then renders only its error view (Mode2.tsx:249-265). */
    var saveFailed: bool

    /** Rounds whose answer has been recorded: the current one counts once it
        is answered. */
    function RoundsCompleted(): int
      reads this
    {
      if gameState == Result || gameState == Finished then currentRound else currentRound - 1
    }

    /** The running totals are those of `completed` answered rounds at most. */
    ghost predicate CountersFit(completed: int)
      reads this
    {
      correctAnswers <= completed && 0.0 <= totalScore <= 100.0 * completed as real
    }

    /** The state the handlers keep. */
    ghost predicate Valid()
      reads this
    {
      && 1 <= currentRound <= TotalRounds
      && 0 <= countdown <= RoundSeconds
      && CountersFit(RoundsCompleted())
      && (gameState == Waiting ==>
            currentRound == 1 && candlestickData == [] && displayData == []
            && userChoice == None && actualResult == None)
      && (gameState != Waiting ==>
            |candlestickData| == SeriesLength && WellFormedSeries(candlestickData))
      && (gameState == Playing ==>
            && 1 <= countdown
            && displayData == candlestickData[..ShownBars]
            && userChoice == None && actualResult == None
            && score == 0.0 && !showNextButton)
      && (gameState == Result || gameState == Finished ==>
            && displayData == candlestickData
            && userChoice.Some?
            && actualResult == Some(CalculateResult(candlestickData))
            && score == CalculateScore(candlestickData)
            && showNextButton)
    }

    /** The state right after `startNewGame` (Mode2.tsx:110-123). */
    ghost predicate NewRound(rnd: seq<real>, today: int)
      requires DrawsCover(rnd, SeriesLength)
      reads this
    {
      && gameState == Playing
      && candlestickData == Series(SeriesLength, today, rnd)
      && displayData == candlestickData[..ShownBars]
      && countdown == RoundSeconds
      && userChoice == None && actualResult == None
      && score == 0.0 && !showNextButton && !saveFailed
    }

    /** The round-specific fields did not change. */
    twostate predicate SameRound()
      reads this
    {
      && candlestickData == old(candlestickData) && displayData == old(displayData)
      && userChoice == old(userChoice) && actualResult == old(actualResult)
      && score == old(score) && showNextButton == old(showNextButton)
      && saveFailed == old(saveFailed)
    }

    /** The session counters did not change. */
    twostate predicate SameSession()
      reads this
    {
      currentRound == old(currentRound) && totalScore == old(totalScore)
      && correctAnswers == old(correctAnswers)
    }

    /** The round was answered with `choice` (Mode2.tsx:165-209): the result is
        shown, the round score is added, a correct answer is counted, and the
        whole series is revealed, extending what was shown. */
    twostate predicate Resolved(choice: Direction, saveThrew: bool)
      reads this
    {
      && gameState == Result
      && candlestickData == old(candlestickData)
      && Classifiable(candlestickData)
      && userChoice == Some(choice)
      && actualResult == Some(CalculateResult(candlestickData))
      && score == CalculateScore(candlestickData)
      && totalScore == old(totalScore) + score
      && correctAnswers == old(correctAnswers) + (if choice == CalculateResult(candlestickData) then 1 else 0)
      && currentRound == old(currentRound)
      && old(displayData) <= displayData
      && displayData == candlestickData
      && showNextButton
      && saveFailed == saveThrew
    }

    /** The initial `useState` values (Mode2.tsx:90-103). */
    constructor ()
      ensures Valid() && gameState == Waiting
      ensures countdown == RoundSeconds && currentRound == 1
      ensures totalScore == 0.0 && correctAnswers == 0 && score == 0.0
      ensures candlestickData == [] && displayData == []
      ensures userChoice == None && actualResult == None
      ensures !showNextButton && !saveFailed
    {
      gameState := Waiting;
      countdown := RoundSeconds;
      currentRound := 1;
      candlestickData := [];
      displayData := [];
      userChoice := None;
      actualResult := None;
      score := 0.0;
      totalScore := 0.0;
      correctAnswers := 0;
      showNextButton := false;
      saveFailed := false;
    }

    /** startNewGame (Mode2.tsx:106-128): a fresh series of 30 bars of which
        the first 25 are shown; the session counters are left alone. Its
        callers set the round first, so the counters fit the rounds before
        it. */
    method StartNewGame(rnd: seq<real>, today: int)
      requires DrawsCover(rnd, SeriesLength)
      requires 1 <= currentRound <= TotalRounds && CountersFit(currentRound - 1)
      modifies this
      ensures Valid() && NewRound(rnd, today)
      ensures SameSession()
    {
      var data := GenerateFakeCandlestickData(SeriesLength, today, rnd);
      candlestickData := data;
      displayData := data[..|data| - HiddenBars];
      gameState := Playing;
      countdown := RoundSeconds;
      userChoice := None;
      actualResult := None;
      score := 0.0;
      showNextButton := false;
      saveFailed := false;
    }

    /** The mount effect (Mode2.tsx:131-135): once the user id is known, the
        first round starts. */
    method OnUserReady(rnd: seq<real>, today: int)
      requires Valid() && gameState == Waiting && DrawsCover(rnd, SeriesLength)
      modifies this
      ensures Valid() && NewRound(rnd, today)
      ensures currentRound == 1 && totalScore == 0.0 && correctAnswers == 0
    {
      StartNewGame(rnd, today);
    }

    /** handleAnswer (Mode2.tsx:158-216). Only the first answer of a round is
        taken: outside `playing`, or once a choice exists, nothing changes. */
    method HandleAnswer(choice: Direction, saveThrew: bool)
      requires Valid()
      modifies this
      ensures Valid()
      ensures old(gameState == Playing && userChoice == None) ==>
                Resolved(choice, saveThrew) && countdown == old(countdown)
      ensures !old(gameState == Playing && userChoice == None) ==> unchanged(this)
    {
      if gameState != Playing || userChoice.Some? {
        return;
      }
      saveFailed := false;
      userChoice := Some(choice);
      gameState := Result;
      var result := CalculateResult(candlestickData);
      actualResult := Some(result);
      var roundScore := CalculateScore(candlestickData);
      score := roundScore;
      totalScore := totalScore + roundScore;
      var isCorrect := choice == result;
      if isCorrect {
        correctAnswers := correctAnswers + 1;
      }
      displayData := candlestickData;
      if saveThrew {
        saveFailed := true;
      }
      showNextButton := true;
    }

    /** One second of the countdown (Mode2.tsx:138-155). The timer runs only
        while playing with time left; the last second submits `sideways` if
        no choice was made, and the countdown stops at 0. */
    method Tick(saveThrew: bool)
      requires Valid()
      modifies this
      ensures Valid()
      ensures old(gameState) != Playing || old(countdown) <= 0 ==> unchanged(this)
      ensures old(gameState) == Playing && old(countdown) > 1 ==>
                countdown == old(countdown) - 1 && gameState == Playing
                && SameRound() && SameSession()
      ensures old(gameState) == Playing && 0 < old(countdown) <= 1 ==>
                countdown == 0 && Resolved(Sideways, saveThrew)
    {
      if gameState != Playing || countdown <= 0 {
        return;
      }
      if countdown <= 1 {
        if userChoice == None {
          HandleAnswer(Sideways, saveThrew);
        }
        countdown := 0;
      } else {
        countdown := countdown - 1;
      }
    }

    /** handleNext (Mode2.tsx:219-226), reached from the button of the result
        view (Mode2.tsx:369, 416-419): the next round, or the end of the
        session after the last one. */
    method HandleNext(rnd: seq<real>, today: int)
      requires Valid() && gameState == Result && DrawsCover(rnd, SeriesLength)
      modifies this
      ensures Valid()
      ensures old(currentRound) < TotalRounds ==>
                currentRound == old(currentRound) + 1 && NewRound(rnd, today)
                && totalScore == old(totalScore) && correctAnswers == old(correctAnswers)
      ensures old(currentRound) >= TotalRounds ==>
                gameState == Finished && countdown == old(countdown)
                && SameRound() && SameSession()
    {
      if currentRound < TotalRounds {
        currentRound := currentRound + 1;
        StartNewGame(rnd, today);
      } else {
        gameState := Finished;
      }
    }

    /** handleRestart (Mode2.tsx:229-234): round 1 with zero totals. */
    method HandleRestart(rnd: seq<real>, today: int)
      requires Valid() && DrawsCover(rnd, SeriesLength)
      modifies this
      ensures Valid() && NewRound(rnd, today)
      ensures currentRound == 1 && totalScore == 0.0 && correctAnswers == 0
    {
      currentRound := 1;
      totalScore := 0.0;
      correctAnswers := 0;
      StartNewGame(rnd, today);
    }

    /** The share of answered rounds answered correctly, in percent. */
    function CompletedAccuracy(): (a: real)
      reads this
      ensures Valid() ==> 0.0 <= a <= 100.0
      ensures RoundsCompleted() <= 0 ==> a == 0.0
    {
      var n := RoundsCompleted();
      if n <= 0 then 0.0
      else
        var a := correctAnswers as real / n as real * 100.0;
        assert correctAnswers <= n ==> 0.0 <= a <= 100.0 by {
          if correctAnswers <= n {
            PercentageBound(correctAnswers as real, n as real);
          }
        }
        a
    }

    /** accuracy (Mode2.tsx:237), as written: it divides by `currentRound - 1`.
        Before a round is answered that is the number of answered rounds, so
        the value is the true accuracy; once the round is answered it is not. */
    function Accuracy(): (a: real)
      reads this
      ensures Valid() && (gameState == Waiting || gameState == Playing) ==>
                a == CompletedAccuracy() && 0.0 <= a <= 100.0
    {
      if currentRound > 1 then correctAnswers as real / (currentRound - 1) as real * 100.0 else 0.0
    }
  }

  /** One round answered with the true direction, then the next button. */
  method AnswerTruthAndContinue(game: Mode2, rnd: seq<real>, today: int)
    requires game.Valid() && game.gameState == Playing && DrawsCover(rnd, SeriesLength)
    modifies game
    ensures game.Valid()
    ensures old(game.currentRound) < TotalRounds ==>
              game.gameState == Playing && game.currentRound == old(game.currentRound) + 1
    ensures old(game.currentRound) >= TotalRounds ==>
              game.gameState == Finished && game.currentRound == old(game.currentRound)
    ensures game.correctAnswers == old(game.correctAnswers) + 1
  {
    var truth := CalculateResult(game.candlestickData);
    game.HandleAnswer(truth, false);
    game.HandleNext(rnd, today);
  }

  /** A session answered correctly in every round ends with an accuracy of
      10 / 9 * 100 on display, above 100%, while 10 of 10 answers were right. */
  method PerfectSessionAccuracy(rnds: seq<seq<real>>, today: int) returns (shown: real, actual: real)
    requires |rnds| == TotalRounds
    requires forall k :: 0 <= k < |rnds| ==> DrawsCover(rnds[k], SeriesLength)
    ensures shown == 1000.0 / 9.0 && shown > 100.0
    ensures actual == 100.0
  {
    var game := new Mode2();
    game.OnUserReady(rnds[0], today);
    var k := 0;
    while k < TotalRounds
      invariant 0 <= k <= TotalRounds
      invariant game.Valid()
      invariant k < TotalRounds ==> game.gameState == Playing && game.currentRound == k + 1
      invariant k == TotalRounds ==> game.gameState == Finished && game.currentRound == TotalRounds
      invariant game.correctAnswers == k
    {
      AnswerTruthAndContinue(game, rnds[k], today);
      k := k + 1;
    }
    shown, actual := ReadAccuracies(game);
  }

  /** Both accuracies at the end of a session with ten right answers. */
  method ReadAccuracies(game: Mode2) returns (shown: real, actual: real)
    requires game.Valid() && game.gameState == Finished
    requires game.correctAnswers == TotalRounds && game.currentRound == TotalRounds
    ensures shown == 1000.0 / 9.0 && actual == 100.0
  {
    shown := game.Accuracy();
    actual := game.CompletedAccuracy();
  }

  /** Without an answer, ten ticks from a fresh round end it: the first nine
      count down, the tenth submits `sideways`; an eleventh changes nothing. */
  method TimeoutAfterTenTicks(game: Mode2, saveThrew: bool)
    requires game.Valid() && game.gameState == Playing && game.countdown == RoundSeconds
    modifies game
    ensures game.Valid() && game.gameState == Result && game.countdown == 0
    ensures game.userChoice == Some(Sideways)
    ensures game.candlestickData == old(game.candlestickData)
    ensures game.totalScore == old(game.totalScore) + CalculateScore(game.candlestickData)
    ensures game.currentRound == old(game.currentRound)
  {
    var ticks := 0;
    while ticks < RoundSeconds - 1
      invariant 0 <= ticks <= RoundSeconds - 1
      invariant game.Valid() && game.gameState == Playing
      invariant game.countdown == RoundSeconds - ticks
      invariant game.candlestickData == old(game.candlestickData)
      invariant game.totalScore == old(game.totalScore)
      invariant game.currentRound == old(game.currentRound)
    {
      game.Tick(saveThrew);
      ticks := ticks + 1;
    }
    game.Tick(saveThrew);
    game.Tick(saveThrew);
  }

  /** One answer per round: a second answer, and the timer, after a first
      answer change nothing. */
  method SecondAnswerIgnored(game: Mode2, first: Direction, second: Direction)
    requires game.Valid() && game.gameState == Playing
    modifies game
    ensures game.Valid() && game.gameState == Result && game.userChoice == Some(first)
    ensures game.totalScore == old(game.totalScore) + CalculateScore(game.candlestickData)
    ensures game.correctAnswers
         == old(game.correctAnswers) + (if first == CalculateResult(game.candlestickData) then 1 else 0)
  {
    game.HandleAnswer(first, false);
    game.HandleAnswer(second, true);
    game.Tick(true);
  }
}
