/** Rounds of a tournament and the cursor over them (main.py Round and GameState). */
module Rounds {

  /** One level of the tournament: its 1-based number, its length in minutes and its two blinds.
      Python's Round(num) leaves the other three fields at 0. */
  datatype Round = Round(num: int, time: int, sBlind: int, bBlind: int)

  /** Where "next round" leaves a cursor at index in a list of count rounds: one further on,
      unless that would run past the end. */
  function NextIndex(count: int, index: int): int {
    if count > index + 1 then index + 1 else index
  }

  /** `min(index, count - 1)`: the cursor kept after the round list is replaced by one of count rounds. */
  function ClampIndex(index: int, count: int): (r: int)
    requires count > 0
    ensures 0 <= index ==> 0 <= r < count
    ensures index < count ==> r == index
    ensures index >= count ==> r == count - 1
  {
    if index < count - 1 then index else count - 1
  }

  /** The cursor after k presses of "next round". */
  function AdvanceTimes(count: int, index: int, k: nat): int {
    if k == 0 then index else NextIndex(count, AdvanceTimes(count, index, k - 1))
  }

  /** Advancing k times moves k rounds on, or stops on the last round: once there, every further
      advance leaves the cursor on it (no wrap-around). */
  lemma {:induction false} AdvanceStopsAtLast(count: int, index: int, k: nat)
    requires 0 <= index < count
    ensures AdvanceTimes(count, index, k) == if index + k < count then index + k else count - 1
  {
    if k > 0 {
      AdvanceStopsAtLast(count, index, k - 1);
    }
  }

  /** The live cursor over the round list, with the current round's fields copied out for display. */
  class GameState {
    var rounds: seq<Round>
    var roundIndex: int
    var roundNum: int
    var time: int
    var sBlind: int
    var bBlind: int

    /** The cursor is inside the list and the mirrored fields are those of the round under it. */
    ghost predicate Valid()
      reads this
    {
      0 <= roundIndex < |rounds| &&
      roundNum == rounds[roundIndex].num &&
      time == rounds[roundIndex].time &&
      sBlind == rounds[roundIndex].sBlind &&
      bBlind == rounds[roundIndex].bBlind
    }

    constructor (rounds: seq<Round>)
      requires |rounds| > 0
      ensures Valid()
      ensures this.rounds == rounds && roundIndex == 0
    {
      this.rounds := rounds;
      roundIndex := 0;
      roundNum := rounds[0].num;
      time := rounds[0].time;
      sBlind := rounds[0].sBlind;
      bBlind := rounds[0].bBlind;
    }

    /** Copies the round under the cursor into the four display fields. */
    method ShowCurrent()
      requires 0 <= roundIndex < |rounds|
      modifies this
      ensures Valid()
      ensures rounds == old(rounds) && roundIndex == old(roundIndex)
    {
      roundNum := rounds[roundIndex].num;
      time := rounds[roundIndex].time;
      sBlind := rounds[roundIndex].sBlind;
      bBlind := rounds[roundIndex].bBlind;
    }

    method NextRound()
      requires Valid()
      modifies this
      ensures Valid()
      ensures rounds == old(rounds)
      ensures roundIndex == NextIndex(|rounds|, old(roundIndex))
      ensures roundIndex == old(roundIndex) + 1 <==> old(roundIndex) + 1 < |rounds|
      ensures roundIndex == old(roundIndex) <==> old(roundIndex) == |rounds| - 1
    {
      if |rounds| > roundIndex + 1 {
        roundIndex := roundIndex + 1;
      }
      ShowCurrent();
    }

    method RestartGame()
      requires Valid()
      modifies this
      ensures Valid()
      ensures rounds == old(rounds) && roundIndex == 0
    {
      roundIndex := 0;
      ShowCurrent();
    }

    /** Swaps in an edited or imported list; the cursor stays where it was if that round still exists. */
    method UpdateRounds(newRounds: seq<Round>)
      requires Valid()
      requires |newRounds| > 0
      modifies this
      ensures Valid()
      ensures rounds == newRounds
      ensures roundIndex == ClampIndex(old(roundIndex), |newRounds|)
      ensures old(roundIndex) < |newRounds| ==> roundIndex == old(roundIndex)
    {
      rounds := newRounds;
      roundIndex := if roundIndex < |newRounds| - 1 then roundIndex else |newRounds| - 1;
      ShowCurrent();
    }
  }
}
