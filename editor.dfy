/** The game editor (main.py EditorPage): building a round list from the editor's entries, the
    flat comma-separated file written by export and read back by import, and committing a new
    list to the application or to a running game. */
module Editor {
  import opened Strings
  import opened Rounds
  import opened Timing
  import opened Pages

  // ---------------------------------------------------------------------------------------------
  // Saving the editor's entries

  /** How many rounds save_game builds: the number in the count entry (a negative one builds
      none, as range() does), or, when that entry is not a number, as many as the editor showed. */
  function RoundCount(countEntry: string, shownCount: nat): nat {
    match ParseInt(countEntry)
    case Some(n) => if n < 0 then 0 else n
    case None => shownCount
  }

  /** Row i of the saved list: numbered i + 1, with the three entries of row i when they all exist
      and parse, and the zero round Round(i + 1) otherwise. */
  function EntryRound(i: int, times: seq<string>, smallBlinds: seq<string>, bigBlinds: seq<string>): Round {
    if 0 <= i && i < |times| && i < |smallBlinds| && i < |bigBlinds| &&
       ParseInt(times[i]).Some? && ParseInt(smallBlinds[i]).Some? && ParseInt(bigBlinds[i]).Some?
    then Round(i + 1, ParseInt(times[i]).value, ParseInt(smallBlinds[i]).value, ParseInt(bigBlinds[i]).value)
    else Round(i + 1, 0, 0, 0)
  }

  /** The list save_game builds. Whatever numbers the rounds had before, they come out as 1..N. */
  function EditorRounds(countEntry: string, shownCount: nat, times: seq<string>,
                        smallBlinds: seq<string>, bigBlinds: seq<string>): (rounds: seq<Round>)
    ensures |rounds| == RoundCount(countEntry, shownCount)
    ensures forall i :: 0 <= i < |rounds| ==> rounds[i].num == i + 1
  {
    seq(RoundCount(countEntry, shownCount), i => EntryRound(i, times, smallBlinds, bigBlinds))
  }

  /** The loop of save_game, appending one round per row. */
  method SaveRounds(countEntry: string, shownCount: nat, times: seq<string>,
                    smallBlinds: seq<string>, bigBlinds: seq<string>) returns (rounds: seq<Round>)
    ensures rounds == EditorRounds(countEntry, shownCount, times, smallBlinds, bigBlinds)
  {
    var numRounds: nat;
    var parsed := ParseInt(countEntry);
    if parsed.Some? {
      numRounds := if parsed.value < 0 then 0 else parsed.value;
    } else {
      numRounds := shownCount;
    }
    rounds := [];
    for i := 0 to numRounds
      invariant |rounds| == i
      invariant forall j :: 0 <= j < i ==> rounds[j] == EntryRound(j, times, smallBlinds, bigBlinds)
    {
      var t, s, b := None, None, None;
      if i < |times| && i < |smallBlinds| && i < |bigBlinds| {
        t, s, b := ParseInt(times[i]), ParseInt(smallBlinds[i]), ParseInt(bigBlinds[i]);
      }
      if t.Some? && s.Some? && b.Some? {
        rounds := rounds + [Round(i + 1, t.value, s.value, b.value)];
      } else {
        rounds := rounds + [Round(i + 1, 0, 0, 0)];
      }
    }
  }

  /** The texts the editor shows for a list of rounds: str() of each field, one row per round. */
  function ShownTimes(rs: seq<Round>): seq<string> {
    seq(|rs|, i requires 0 <= i < |rs| => IntToString(rs[i].time))
  }

  function ShownSmallBlinds(rs: seq<Round>): seq<string> {
    seq(|rs|, i requires 0 <= i < |rs| => IntToString(rs[i].sBlind))
  }

  function ShownBigBlinds(rs: seq<Round>): seq<string> {
    seq(|rs|, i requires 0 <= i < |rs| => IntToString(rs[i].bBlind))
  }

  /** Saving the entries exactly as the editor shows them gives the same rounds back, numbered 1..N;
      a list already numbered 1..N comes back unchanged. */
  lemma SaveShownRounds(rs: seq<Round>, shownCount: nat)
    ensures var saved := EditorRounds(IntToString(|rs|), shownCount, ShownTimes(rs),
                                      ShownSmallBlinds(rs), ShownBigBlinds(rs));
            |saved| == |rs| &&
            (forall i :: 0 <= i < |rs| ==> saved[i] == rs[i].(num := i + 1)) &&
            ((forall i :: 0 <= i < |rs| ==> rs[i].num == i + 1) ==> saved == rs)
  {
    ParseIntOfString(|rs|);
    var saved := EditorRounds(IntToString(|rs|), shownCount, ShownTimes(rs),
                              ShownSmallBlinds(rs), ShownBigBlinds(rs));
    forall i | 0 <= i < |rs|
      ensures saved[i] == rs[i].(num := i + 1)
    {
      ParseIntOfString(rs[i].time);
      ParseIntOfString(rs[i].sBlind);
      ParseIntOfString(rs[i].bBlind);
    }
  }

  // ---------------------------------------------------------------------------------------------
  // The file format

  /** One line of an exported file, without its newline: num,time,s_blind,b_blind. */
  function RowText(r: Round): string {
    IntToString(r.num) + "," + IntToString(r.time) + "," + IntToString(r.sBlind) + "," + IntToString(r.bBlind)
  }

  /** The exported file: every round's line followed by a newline, in order, no header. */
  function ExportText(rounds: seq<Round>): string {
    if |rounds| == 0 then "" else RowText(rounds[0]) + "\n" + ExportText(rounds[1..])
  }

  /** The rows the csv reader yields: the text cut at each newline, without the empty piece
      after a final newline. */
  function Lines(text: string): seq<string> {
    var parts := SplitOn(text, '\n');
    if parts[|parts| - 1] == "" then parts[..|parts| - 1] else parts
  }

  /** Round(int(row[0]), int(row[1]), int(row[2]), int(row[3])): a row needs four fields, each an
      integer; any further fields are ignored. */
  function ParseRow(line: string): Option<Round> {
    var fields := SplitOn(line, ',');
    if |fields| < 4 then None
    else
      match (ParseInt(fields[0]), ParseInt(fields[1]), ParseInt(fields[2]), ParseInt(fields[3]))
      case (Some(n), Some(t), Some(s), Some(b)) => Some(Round(n, t, s, b))
      case _ => None
  }

  /** A row is accepted exactly when it has at least four fields and the first four are integers. */
  lemma ParseRowAccepts(line: string)
    ensures ParseRow(line).Some? <==>
            |SplitOn(line, ',')| >= 4 && forall j :: 0 <= j < 4 ==> IsDecimal(SplitOn(line, ',')[j])
  {
    var fields := SplitOn(line, ',');
    if |fields| >= 4 && !ParseRow(line).Some? {
      assert !(ParseInt(fields[0]).Some? && ParseInt(fields[1]).Some? &&
               ParseInt(fields[2]).Some? && ParseInt(fields[3]).Some?);
    }
  }

  /** The rounds read from a file, or None when some row fails: one bad row fails the whole file;
      otherwise one round per row, in file order. */
  function ImportText(text: string): Option<seq<Round>> {
    var rows := Lines(text);
    if forall i :: 0 <= i < |rows| ==> ParseRow(rows[i]).Some? then
      Some(seq(|rows|, i requires 0 <= i < |rows| => ParseRow(rows[i]).value))
    else
      None
  }

  /** The loop of import_game, appending one round per row and stopping at the first bad row. */
  method ImportRounds(text: string) returns (r: Option<seq<Round>>)
    ensures r == ImportText(text)
  {
    var rows := Lines(text);
    var rounds: seq<Round> := [];
    for i := 0 to |rows|
      invariant |rounds| == i
      invariant forall j :: 0 <= j < i ==> ParseRow(rows[j]) == Some(rounds[j])
    {
      var row := ParseRow(rows[i]);
      if row.None? {
        assert !ParseRow(rows[i]).Some?;
        return None;
      }
      rounds := rounds + [row.value];
    }
    assert forall j :: 0 <= j < |rows| ==> ParseRow(rows[j]).Some?;
    assert rounds == seq(|rows|, i requires 0 <= i < |rows| => ParseRow(rows[i]).value);
    return Some(rounds);
  }

  lemma NoSeparatorInRow(r: Round)
    ensures '\n' !in RowText(r)
  {
    StringHasNo(r.num, '\n');
    StringHasNo(r.time, '\n');
    StringHasNo(r.sBlind, '\n');
    StringHasNo(r.bBlind, '\n');
  }

  /** A row of the exported file reads back as the round it was written from. */
  lemma ParseRowText(r: Round)
    ensures ParseRow(RowText(r)) == Some(r)
  {
    var a, b, c, d := IntToString(r.num), IntToString(r.time), IntToString(r.sBlind), IntToString(r.bBlind);
    var fields := [a, b, c, d];
    assert [c, d][1..] == [d];
    assert JoinWith([c, d], ',') == c + [','] + d;
    assert [b, c, d][1..] == [c, d];
    assert JoinWith([b, c, d], ',') == b + [','] + JoinWith([c, d], ',');
    assert fields[1..] == [b, c, d];
    assert JoinWith(fields, ',') == a + [','] + JoinWith([b, c, d], ',');
    assert JoinWith(fields, ',') == RowText(r);
    StringHasNo(r.num, ',');
    StringHasNo(r.time, ',');
    StringHasNo(r.sBlind, ',');
    StringHasNo(r.bBlind, ',');
    SplitJoin(fields, ',');
    ParseIntOfString(r.num);
    ParseIntOfString(r.time);
    ParseIntOfString(r.sBlind);
    ParseIntOfString(r.bBlind);
  }

  function RowTexts(rounds: seq<Round>): seq<string> {
    seq(|rounds|, i requires 0 <= i < |rounds| => RowText(rounds[i]))
  }

  lemma JoinCons(head: string, tail: seq<string>, sep: char)
    requires |tail| > 0
    ensures JoinWith([head] + tail, sep) == head + [sep] + JoinWith(tail, sep)
  {
    assert ([head] + tail)[1..] == tail;
  }

  lemma {:induction false} ExportIsJoin(rounds: seq<Round>)
    ensures ExportText(rounds) == JoinWith(RowTexts(rounds) + [""], '\n')
  {
    if |rounds| > 0 {
      ExportIsJoin(rounds[1..]);
      var rest := RowTexts(rounds[1..]) + [""];
      assert RowTexts(rounds) + [""] == [RowText(rounds[0])] + rest;
      JoinCons(RowText(rounds[0]), rest, '\n');
    }
  }

  /** The exported file has exactly one row per round, in order. */
  lemma ExportLines(rounds: seq<Round>)
    ensures Lines(ExportText(rounds)) == RowTexts(rounds)
  {
    var parts := RowTexts(rounds) + [""];
    forall i | 0 <= i < |parts|
      ensures '\n' !in parts[i]
    {
      if i < |rounds| {
        NoSeparatorInRow(rounds[i]);
      }
    }
    ExportIsJoin(rounds);
    SplitJoin(parts, '\n');
    assert parts[..|parts| - 1] == RowTexts(rounds);
  }

  /** Importing an exported file gives back the same rounds, in the same order. */
  lemma ImportExport(rounds: seq<Round>)
    ensures ImportText(ExportText(rounds)) == Some(rounds)
  {
    var text := ExportText(rounds);
    ExportLines(rounds);
    var rows := Lines(text);
    assert |rows| == |rounds|;
    forall i | 0 <= i < |rows|
      ensures ParseRow(rows[i]) == Some(rounds[i])
    {
      assert rows[i] == RowText(rounds[i]);
      ParseRowText(rounds[i]);
    }
    var parsed := seq(|rows|, i requires 0 <= i < |rows| => ParseRow(rows[i]).value);
    assert parsed == rounds;
    assert ImportText(text) == Some(parsed);
  }

  /** A file in which some row has fewer than four fields, or a field among the first four that is
      not an integer, is refused as a whole. */
  lemma ImportRefusesBadRow(text: string, i: nat, j: nat)
    requires i < |Lines(text)|
    requires var fields := SplitOn(Lines(text)[i], ',');
             |fields| < 4 || (j < 4 && !IsDecimal(fields[j]))
    ensures ImportText(text) == None
  {
    ParseRowAccepts(Lines(text)[i]);
    assert !ParseRow(Lines(text)[i]).Some?;
  }

  // ---------------------------------------------------------------------------------------------
  // Committing a list

  /** The application before a game starts; it only keeps the rounds the editor committed
      (None until the first commit). */
  class PokerTime {
    var rounds: Option<seq<Round>>

    constructor ()
      ensures rounds == None
    {
      rounds := None;
    }
  }

  /** What an editor window commits to: the application, when opened from the landing page, or a
      running game. */
  datatype Context = Landing(app: PokerTime) | InGame(page: GamePage)

  /** What import_game commits: no file (the dialog was cancelled) gives an empty list. */
  function Imported(file: Option<string>): Option<seq<Round>> {
    match file
    case None => Some([])
    case Some(text) => ImportText(text)
  }

  class EditorPage {
    const ctx: Context
    /** The rounds this editor last loaded or committed. */
    var rounds: seq<Round>

    /** The objects a commit changes. */
    ghost function Targets(): set<object?>
      reads if ctx.InGame? then {ctx.page} else {}
    {
      match ctx
      case Landing(app) => {app}
      case InGame(page) => {page.gameState, page.timer, page.timerButton}
    }

    /** A "New Game" editor starts empty; an "Edit Game" editor starts from the game's rounds. */
    constructor (ctx: Context, isNew: bool)
      requires !isNew ==> ctx.InGame?
      ensures this.ctx == ctx
      ensures rounds == if isNew then [] else ctx.page.gameState.rounds
    {
      this.ctx := ctx;
      if isNew {
        rounds := [];
      } else {
        rounds := ctx.page.gameState.rounds;
      }
    }

    /** Hands a new list to the application, or swaps it into the running game (clamping the
        cursor and reloading the timer); the editor then holds it too. */
    method Commit(newRounds: seq<Round>)
      requires ctx.InGame? ==> ctx.page.Valid() && |newRounds| > 0
      modifies this`rounds, Targets()
      ensures rounds == newRounds
      ensures ctx.Landing? ==> ctx.app.rounds == Some(newRounds)
      ensures ctx.InGame? ==> ctx.page.Valid() && ctx.page.gameState.rounds == newRounds
      ensures ctx.InGame? ==>
        ctx.page.gameState.roundIndex == ClampIndex(old(ctx.page.gameState.roundIndex), |newRounds|)
      ensures ctx.InGame? ==>
        ctx.page.timer.View() == Refresh(old(ctx.page.timer.View()), ctx.page.gameState.time)
    {
      match ctx {
        case Landing(app) =>
          app.rounds := Some(newRounds);
        case InGame(page) =>
          page.gameState.UpdateRounds(newRounds);
          page.RefreshRoundValues();
      }
      rounds := newRounds;
    }

    /** "Save Game": builds the list from the entries and commits it. In a running game the source
        fails on an empty list, so a commit of no rounds is only allowed before the game starts. */
    method SaveGame(countEntry: string, times: seq<string>, smallBlinds: seq<string>, bigBlinds: seq<string>)
      requires ctx.InGame? ==> ctx.page.Valid() && RoundCount(countEntry, |rounds|) > 0
      modifies this`rounds, Targets()
      ensures rounds == EditorRounds(countEntry, old(|rounds|), times, smallBlinds, bigBlinds)
      ensures ctx.Landing? ==> ctx.app.rounds == Some(rounds)
      ensures ctx.InGame? ==> ctx.page.Valid() && ctx.page.gameState.rounds == rounds
      ensures ctx.InGame? ==>
        ctx.page.gameState.roundIndex == ClampIndex(old(ctx.page.gameState.roundIndex), |rounds|)
      ensures ctx.InGame? ==>
        ctx.page.timer.View() == Refresh(old(ctx.page.timer.View()), ctx.page.gameState.time)
    {
      var built := SaveRounds(countEntry, |rounds|, times, smallBlinds, bigBlinds);
      Commit(built);
    }

    /** "Export Game": saves the entries first, then, if a file was chosen, writes the committed list. */
    method ExportGame(countEntry: string, times: seq<string>, smallBlinds: seq<string>,
                      bigBlinds: seq<string>, fileChosen: bool) returns (written: Option<string>)
      requires ctx.InGame? ==> ctx.page.Valid() && RoundCount(countEntry, |rounds|) > 0
      modifies this`rounds, Targets()
      ensures rounds == EditorRounds(countEntry, old(|rounds|), times, smallBlinds, bigBlinds)
      ensures ctx.Landing? ==> ctx.app.rounds == Some(rounds)
      ensures ctx.InGame? ==> ctx.page.Valid() && ctx.page.gameState.rounds == rounds
      ensures ctx.InGame? ==>
        ctx.page.gameState.roundIndex == ClampIndex(old(ctx.page.gameState.roundIndex), |rounds|)
      ensures ctx.InGame? ==>
        ctx.page.timer.View() == Refresh(old(ctx.page.timer.View()), ctx.page.gameState.time)
      ensures written == if fileChosen then Some(ExportText(rounds)) else None
    {
      SaveGame(countEntry, times, smallBlinds, bigBlinds);
      var source := if ctx.Landing? then ctx.app.rounds.value else ctx.page.gameState.rounds;
      if fileChosen {
        written := Some(ExportText(source));
      } else {
        written := None;
      }
    }

    /** "Import Game": reads the chosen file and commits its rounds; a bad row fails the import
        before anything is committed. In a running game the source fails on an empty list, so
        there a file with at least one round must be chosen. */
    method ImportGame(file: Option<string>) returns (ok: bool)
      requires ctx.InGame? ==> ctx.page.Valid() && Imported(file) != Some([])
      modifies this`rounds, Targets()
      ensures ok == Imported(file).Some?
      ensures !ok ==> rounds == old(rounds) && unchanged(Targets())
      ensures ok ==> rounds == Imported(file).value
      ensures ok && ctx.Landing? ==> ctx.app.rounds == Some(rounds)
      ensures ctx.InGame? ==> ctx.page.Valid()
      ensures ok && ctx.InGame? ==> ctx.page.gameState.rounds == rounds
      ensures ok && ctx.InGame? ==>
        ctx.page.gameState.roundIndex == ClampIndex(old(ctx.page.gameState.roundIndex), |rounds|)
      ensures ok && ctx.InGame? ==>
        ctx.page.timer.View() == Refresh(old(ctx.page.timer.View()), ctx.page.gameState.time)
    {
      var read: Option<seq<Round>> := Some([]);
      if file.Some? {
        read := ImportRounds(file.value);
      }
      if read.None? {
        return false;
      }
      Commit(read.value);
      return true;
    }
  }
}
