/** The objects behind the game screen (main.py Timer, TimerButton and GamePage): their fields
    and the steps that change them. Widgets and colours are not modelled. */
module Pages {
  import opened Strings
  import opened Rounds
  import opened Timing

  /** The start/pause/reset button; only its text is state. */
  class TimerButton {
    var text: Label

    constructor ()
      ensures text == StartTimer
    {
      text := StartTimer;
    }

    method SetText(l: Label)
      modifies this
      ensures text == l
    {
      text := l;
    }
  }

  /** The countdown. Its button and the flashing flag belong to the game page it points back to. */
  class Timer {
    const page: GamePage
    var isPaused: bool
    var timeRemaining: int
    /** The clock text on screen (the StringVar time_var). */
    var display: string

    /** The timer's state together with the parts of the page it drives. */
    ghost function View(): Clock
      reads this, page, page.timerButton
    {
      Clock(isPaused, timeRemaining, display, page.timerButton.text, page.isFlashing)
    }

    /** A new timer is paused on the full length of the page's current round. */
    constructor (page: GamePage)
      ensures this.page == page
      ensures isPaused && timeRemaining == page.gameState.time * 60
      ensures display == FormatTime(timeRemaining)
    {
      this.page := page;
      isPaused := true;
      timeRemaining := page.gameState.time * 60;
      display := FormatTime(page.gameState.time * 60);
    }

    method Pause()
      modifies this`isPaused
      ensures isPaused
    {
      isPaused := true;
    }

    method Unpause()
      modifies this`isPaused
      ensures !isPaused
    {
      isPaused := false;
    }

    /** The button's command: resume, reset after expiry, or pause. */
    method Start()
      requires page.Valid() && page.timer == this
      modifies this, page`isFlashing, page.timerButton
      ensures page.Valid()
      ensures View() == Press(old(View()), page.gameState.time)
    {
      ghost var before := View();
      if isPaused {
        Unpause();
        page.timerButton.SetText(PauseTimer);
        assert View() == before.(paused := false, button := PauseTimer);
        Countdown();
      } else if timeRemaining == 0 {
        Pause();
        page.StopFlashing();
        timeRemaining := page.gameState.time * 60;
        display := FormatTime(timeRemaining);
        page.timerButton.SetText(StartTimer);
      } else {
        Pause();
        page.timerButton.SetText(ResumeTimer);
      }
      ConsistentKept(before, page.gameState.time);
    }

    /** One one-second tick; the rescheduling through the event loop is not modelled. */
    method Countdown()
      requires page.Valid() && page.timer == this
      modifies this, page`isFlashing, page.timerButton
      ensures page.Valid()
      ensures View() == Tick(old(View()))
    {
      ghost var before := View();
      if timeRemaining > 0 && !isPaused {
        display := FormatTime(timeRemaining);
        timeRemaining := timeRemaining - 1;
      } else if isPaused {
      } else {
        display := "0:00";
        page.timerButton.SetText(ResetTimer);
        page.FlashScreen();
      }
      ConsistentKept(before, 0);
    }
  }

  /** The game screen: the cursor over the rounds, the timer, its button and the flashing flag. */
  class GamePage {
    const gameState: GameState
    const timerButton: TimerButton
    var timer: Timer?
    var isFlashing: bool

    /** The parts are in place: a valid cursor and a timer that points back to this page. */
    ghost predicate Linked()
      reads this, gameState
    {
      gameState.Valid() && timer != null && timer.page == this
    }

    /** Linked, and the button label agrees with the timer (see Timing.Consistent). */
    ghost predicate Valid()
      reads this, gameState, timer, timerButton
    {
      Linked() && Consistent(timer.View())
    }

    /** A new page starts on the first round with a stopped, full-length timer. */
    constructor (rounds: seq<Round>)
      requires |rounds| > 0
      ensures Valid()
      ensures fresh(gameState) && fresh(timer) && fresh(timerButton)
      ensures gameState.rounds == rounds && gameState.roundIndex == 0
      ensures timer.View() == Stopped(rounds[0].time)
    {
      gameState := new GameState(rounds);
      timerButton := new TimerButton();
      isFlashing := false;
      timer := null;
      new;
      timer := new Timer(this);
    }

    /** Raises the flag that drives the end-of-round flashing (the colour cycling is not modelled). */
    method FlashScreen()
      modifies this`isFlashing
      ensures isFlashing
    {
      isFlashing := true;
    }

    method StopFlashing()
      modifies this`isFlashing
      ensures !isFlashing
    {
      isFlashing := false;
    }

    /** Reloads the timer with the current round's length and relabels the button "Start Timer";
        whether the timer is paused, and the flashing, are left as they were. */
    method RefreshRoundValues()
      requires Linked()
      modifies timer, timerButton
      ensures Valid()
      ensures timer.View() == Refresh(old(timer.View()), gameState.time)
    {
      timer.timeRemaining := gameState.time * 60;
      timer.display := FormatTime(timer.timeRemaining);
      timerButton.SetText(StartTimer);
    }

    /** "Next Round": stops the timer and the flashing, advances the cursor, reloads the timer. */
    method NextRound()
      requires Valid()
      modifies this`isFlashing, timer, timerButton, gameState
      ensures Valid()
      ensures gameState.rounds == old(gameState.rounds)
      ensures gameState.roundIndex == NextIndex(|gameState.rounds|, old(gameState.roundIndex))
      ensures timer.View() == Stopped(gameState.rounds[gameState.roundIndex].time)
    {
      timer.Pause();
      StopFlashing();
      gameState.NextRound();
      RefreshRoundValues();
    }

    /** "Restart Game": stops the timer and the flashing, goes back to the first round, reloads the timer. */
    method RestartGame()
      requires Valid()
      modifies this`isFlashing, timer, timerButton, gameState
      ensures Valid()
      ensures gameState.rounds == old(gameState.rounds) && gameState.roundIndex == 0
      ensures timer.View() == Stopped(gameState.rounds[0].time)
    {
      timer.Pause();
      StopFlashing();
      gameState.RestartGame();
      RefreshRoundValues();
    }

    /** "Reset Timer": stops the timer and the flashing and reloads the current round's length. */
    method RestartTimer()
      requires Valid()
      modifies this`isFlashing, timer, timerButton
      ensures Valid()
      ensures timer.View() == Stopped(gameState.rounds[gameState.roundIndex].time)
    {
      timer.Pause();
      StopFlashing();
      timer.timeRemaining := timer.page.gameState.time * 60;
      timer.display := FormatTime(timer.timeRemaining);
      timer.page.timerButton.SetText(StartTimer);
    }
  }

  /** A client of the page: the two-round example of the clock's documentation. */
  method TwoRoundGame() {
    var page := new GamePage([Round(1, 30, 1000, 2000), Round(2, 20, 2000, 4000)]);
    page.timer.Start();
    assert page.timer.timeRemaining == 30 * 60 - 1 && !page.timer.isPaused;
    page.NextRound();
    FormatTimeExamples();
    assert page.gameState.roundIndex == 1 && page.gameState.bBlind == 4000;
    assert page.timer.isPaused && page.timer.timeRemaining == 1200 && page.timer.display == "20:00";
    page.NextRound();
    assert page.gameState.roundIndex == 1;
    page.RestartGame();
    assert page.gameState.roundIndex == 0 && page.timer.timeRemaining == 1800;
  }
}
