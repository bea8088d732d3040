/** The tournament page of the first React Pong page. Its React state is one
    record; the handlers whose source builds a schedule with a loop and
    shuffles an array in place are methods, the others functions. Unlike
    the component version, a reset without a canvas does nothing, the
    serve keeps the paddles in place, the page remembers the size of the
    starting field, and each new round is shuffled before it is paired. */
module LegacyPage {
  import opened Optional
  import opened Tournament
  import opened Keyboard
  import Constants
  import GameEngine
  import LegacyEngine
  import PongApp

  datatype Page = Page(
    score: GameEngine.Score, isPaused: bool, winner: Option<string>, movements: Movements,
    gameMode: PongApp.GameMode, difficulty: LegacyEngine.Difficulty, isStarted: bool,
    players: seq<string>, newPlayerName: string, tournamentState: PongApp.TournamentState,
    matchSchedule: seq<Match>, currentMatchIndex: int, tournamentWinner: Option<string>,
    initialPlayersCount: int, objects: Option<GameEngine.Objects>)

  /** `handleGameReset`: without a canvas nothing happens; otherwise a
      blank, unstarted, unpaused game with no key held, and a new serve when
      the objects exist. */
  function GameReset(s: Page, canvas: Option<LegacyEngine.Canvas>, coin: real): (r: Page)
    ensures canvas.None? ==> r == s
    ensures canvas.Some? ==>
      r.score == GameEngine.Score(0, 0) && r.winner == None && !r.isPaused && !r.isStarted &&
      r.movements == Movements(Idle, Idle)
    ensures canvas.Some? && s.objects.Some? ==>
      r.objects == Some(s.objects.value.(ball :=
        LegacyEngine.ServedBall(s.objects.value.ball, canvas.value.width, canvas.value.height, coin)))
    ensures s.objects.None? ==> r.objects == None
    ensures r.(score := s.score, winner := s.winner, isPaused := s.isPaused, isStarted := s.isStarted,
               movements := s.movements, objects := s.objects) == s
  {
    if canvas.None? then s
    else
      var objects := if s.objects.Some? then
                       Some(s.objects.value.(ball := LegacyEngine.ServedBall(s.objects.value.ball,
                                                        canvas.value.width, canvas.value.height, coin)))
                     else None;
      s.(score := GameEngine.Score(0, 0), winner := None, isPaused := false, isStarted := false,
         objects := objects, movements := Movements(Idle, Idle))
  }

  /** The page's own `handleKeyDown`: the same switch as the keyboard hook,
      with one-player mode read off the page's game mode. Only the two
      movement cells can change, and in one-player mode never the second. */
  function KeyPressed(s: Page, key: string): (r: Page)
    ensures r.(movements := s.movements) == s
    ensures s.gameMode == PongApp.OnePlayer ==> r.movements.p2 == s.movements.p2
    ensures r.movements.p1 != s.movements.p1 ==> IsP1UpKey(ToLower(key)) || IsP1DownKey(ToLower(key))
    ensures r.movements.p2 != s.movements.p2 ==> IsP2UpKey(ToLower(key)) || IsP2DownKey(ToLower(key))
    ensures IsP1UpKey(ToLower(key)) ==> r.movements == s.movements.(p1 := Up)
    ensures IsP1DownKey(ToLower(key)) ==> r.movements == s.movements.(p1 := Down)
    ensures s.gameMode != PongApp.OnePlayer && IsP2UpKey(ToLower(key)) ==> r.movements == s.movements.(p2 := Up)
    ensures s.gameMode != PongApp.OnePlayer && IsP2DownKey(ToLower(key)) ==> r.movements == s.movements.(p2 := Down)
  {
    s.(movements := KeyDown(s.movements, key, s.gameMode == PongApp.OnePlayer))
  }

  /** The page's own `handleKeyUp`: a release clears a cell only when it
      holds the released key's direction; nothing else on the page changes. */
  function KeyReleased(s: Page, key: string): (r: Page)
    ensures r.(movements := s.movements) == s
    ensures r.movements.p1 != s.movements.p1 ==> r.movements.p1 == Idle
    ensures r.movements.p2 != s.movements.p2 ==> r.movements.p2 == Idle
    ensures IsP1UpKey(ToLower(key)) && s.movements.p1 == Up ==> r.movements == s.movements.(p1 := Idle)
    ensures IsP1DownKey(ToLower(key)) && s.movements.p1 == Down ==> r.movements == s.movements.(p1 := Idle)
    ensures IsP2UpKey(ToLower(key)) && s.movements.p2 == Up ==> r.movements == s.movements.(p2 := Idle)
    ensures IsP2DownKey(ToLower(key)) && s.movements.p2 == Down ==> r.movements == s.movements.(p2 := Idle)
  {
    s.(movements := KeyUp(s.movements, key))
  }

  /** The `for` loop that pushes, for every even position, the pair of
      that player and the next one (or the filler). */
  method PairUp(players: seq<string>) returns (matches: seq<Match>)
    ensures matches == Pairings(players)
  {
    matches := [];
    var i := 0;
    while i < |players|
      invariant 0 <= i <= |players| + 1 && i % 2 == 0
      invariant |matches| == i / 2
      invariant forall k :: 0 <= k < |matches| ==>
        matches[k] == Match(players[2 * k], Opponent(players, k), None)
    {
      var p1 := players[i];
      var p2 := if i + 1 < |players| then OrBye(players[i + 1]) else BYE;
      matches := matches + [Match(p1, p2, None)];
      i := i + 2;
    }
    assert |matches| == |Pairings(players)|;
  }

  /** `shuffleArray([...players])`: a copy shuffled in place. */
  method ShuffledCopy(players: seq<string>, js: seq<nat>) returns (r: seq<string>)
    requires Constants.ValidDraws(js, |players|)
    ensures r == Constants.Shuffled(players, js)
    ensures multiset(r) == multiset(players)
  {
    var a := new string[|players|](i requires 0 <= i < |players| => players[i]);
    assert a[..] == players;
    var b := Constants.ShuffleArray(a, js);
    r := b[..];
  }

  /** The tournament fields of `r` are those of `s` with the given
      schedule, index, state and mode, and the rest is `s` after a reset. */
  predicate ResetWith(s: Page, r: Page, canvas: Option<LegacyEngine.Canvas>, coin: real)
  {
    r.(matchSchedule := s.matchSchedule, currentMatchIndex := s.currentMatchIndex,
       tournamentState := s.tournamentState, gameMode := s.gameMode,
       initialPlayersCount := s.initialPlayersCount, tournamentWinner := s.tournamentWinner)
      == GameReset(s, canvas, coin)
  }

  /** `startTournament` as written: with two players or more, the shuffled
      roster is paired into the first round, the field size is remembered,
      the game mode becomes two players and the game is reset. */
  method StartTournament(s: Page, js: seq<nat>, canvas: Option<LegacyEngine.Canvas>, coin: real) returns (r: Page)
    requires Constants.ValidDraws(js, |s.players|)
    ensures |s.players| < 2 ==> r == s
    ensures |s.players| >= 2 ==>
      r.matchSchedule == Pairings(Constants.Shuffled(s.players, js)) && r.currentMatchIndex == 0 &&
      r.tournamentState == PongApp.InProgress && r.gameMode == PongApp.TwoPlayers &&
      r.initialPlayersCount == |s.players| && r.tournamentWinner == s.tournamentWinner &&
      ResetWith(s, r, canvas, coin)
  {
    if |s.players| < 2 {
      return s;
    }
    var shuffledPlayers := ShuffledCopy(s.players, js);
    var matches := PairUp(shuffledPlayers);
    r := s.(initialPlayersCount := |s.players|, matchSchedule := matches, currentMatchIndex := 0,
            tournamentState := PongApp.InProgress, gameMode := PongApp.TwoPlayers);
    r := GameReset(r, canvas, coin);
  }

  /** `startTournament` as evidently intended: the page stays in
      tournament mode. */
  method StartTournamentIntended(s: Page, js: seq<nat>, canvas: Option<LegacyEngine.Canvas>, coin: real) returns (r: Page)
    requires Constants.ValidDraws(js, |s.players|)
    ensures |s.players| < 2 ==> r == s
    ensures |s.players| >= 2 ==>
      r.matchSchedule == Pairings(Constants.Shuffled(s.players, js)) && r.currentMatchIndex == 0 &&
      r.tournamentState == PongApp.InProgress && r.gameMode == s.gameMode &&
      r.initialPlayersCount == |s.players| && r.tournamentWinner == s.tournamentWinner &&
      ResetWith(s, r, canvas, coin)
  {
    if |s.players| < 2 {
      return s;
    }
    var shuffledPlayers := ShuffledCopy(s.players, js);
    var matches := PairUp(shuffledPlayers);
    r := s.(initialPlayersCount := |s.players|, matchSchedule := matches, currentMatchIndex := 0,
            tournamentState := PongApp.InProgress);
    r := GameReset(r, canvas, coin);
  }

  /** The round's winners once `matchWinner` is recorded for the current
      match. */
  function WinnersAfter(s: Page, matchWinner: string): (ws: seq<string>)
    ensures |ws| <= |s.matchSchedule|
    ensures BYE !in ws
  {
    RoundWinners(RecordWinner(s.matchSchedule, s.currentMatchIndex, matchWinner))
  }

  /** What `advanceTournament` leaves: the next match of the round, or a
      champion when one winner is left, or the next round shuffled by `js`
      and paired. */
  predicate Advanced(s: Page, matchWinner: string, js: seq<nat>, canvas: Option<LegacyEngine.Canvas>, coin: real, r: Page)
  {
    var updated := RecordWinner(s.matchSchedule, s.currentMatchIndex, matchWinner);
    var winners := RoundWinners(updated);
    r.players == s.players && r.gameMode == s.gameMode &&
    (s.currentMatchIndex < |s.matchSchedule| - 1 ==>
       r.matchSchedule == updated && r.currentMatchIndex == s.currentMatchIndex + 1 &&
       r.tournamentState == s.tournamentState && r.tournamentWinner == s.tournamentWinner &&
       ResetWith(s, r, canvas, coin)) &&
    (s.currentMatchIndex >= |s.matchSchedule| - 1 && |winners| == 1 ==>
       r == s.(matchSchedule := updated, tournamentWinner := Some(winners[0]),
               tournamentState := PongApp.Finished)) &&
    (s.currentMatchIndex >= |s.matchSchedule| - 1 && |winners| != 1 ==>
       Constants.ValidDraws(js, |winners|) &&
       r.matchSchedule == Pairings(Constants.Shuffled(winners, js)) && r.currentMatchIndex == 0 &&
       r.tournamentState == s.tournamentState && r.tournamentWinner == s.tournamentWinner &&
       ResetWith(s, r, canvas, coin))
  }

  /** `advanceTournament`. The shuffle of the winners draws `js`. */
  method AdvanceTournament(s: Page, matchWinner: string, js: seq<nat>, canvas: Option<LegacyEngine.Canvas>, coin: real)
    returns (r: Page)
    requires Constants.ValidDraws(js, |WinnersAfter(s, matchWinner)|)
    ensures Advanced(s, matchWinner, js, canvas, coin, r)
  {
    var updatedSchedule := RecordWinner(s.matchSchedule, s.currentMatchIndex, matchWinner);
    r := s.(matchSchedule := updatedSchedule);
    if s.currentMatchIndex < |s.matchSchedule| - 1 {
      r := r.(currentMatchIndex := s.currentMatchIndex + 1);
      r := GameReset(r, canvas, coin);
    } else {
      var winners := RoundWinners(updatedSchedule);
      if |winners| == 1 {
        r := r.(tournamentWinner := Some(winners[0]), tournamentState := PongApp.Finished);
      } else {
        var shuffledWinners := ShuffledCopy(winners, js);
        var nextRoundMatches := PairUp(shuffledWinners);
        r := r.(matchSchedule := nextRoundMatches, currentMatchIndex := 0);
        r := GameReset(r, canvas, coin);
      }
    }
  }

  /** `handleAddPlayer`: the same roster rule as the component page. */
  function AddPlayerClick(s: Page): (r: Page)
    ensures r.players == AddPlayer(s.players, s.newPlayerName)
    ensures r.newPlayerName == (if r.players != s.players then "" else s.newPlayerName)
    ensures r.(players := s.players, newPlayerName := s.newPlayerName) == s
  {
    var players := AddPlayer(s.players, s.newPlayerName);
    if players != s.players then s.(players := players, newPlayerName := "") else s
  }

  predicate HasWinner(s: Page)
  {
    s.winner.Some? && s.winner.value != ""
  }

  /** A tournament result click needs the current match. */
  predicate ResultClickable(s: Page)
  {
    0 <= s.currentMatchIndex < |s.matchSchedule|
  }

  /** `handleButtonClick`: a finished tournament match advances the player
      the engine named (the first player against the filler); any other
      finished game is reset; otherwise the game starts or its pause
      toggles. */
  method ButtonClick(s: Page, js: seq<nat>, canvas: Option<LegacyEngine.Canvas>, coin: real) returns (r: Page)
    requires HasWinner(s) && s.gameMode == PongApp.TournamentMode ==>
      ResultClickable(s) &&
      Constants.ValidDraws(js, |WinnersAfter(s, PongApp.MatchResult(s.matchSchedule[s.currentMatchIndex], s.winner.value))|)
    ensures HasWinner(s) && s.gameMode == PongApp.TournamentMode ==>
      Advanced(s, PongApp.MatchResult(s.matchSchedule[s.currentMatchIndex], s.winner.value), js, canvas, coin, r)
    ensures HasWinner(s) && s.gameMode != PongApp.TournamentMode ==> r == GameReset(s, canvas, coin)
    ensures !HasWinner(s) && !s.isStarted ==> r == s.(isStarted := true, isPaused := false)
    ensures !HasWinner(s) && s.isStarted ==> r == s.(isPaused := !s.isPaused)
  {
    if HasWinner(s) {
      if s.gameMode == PongApp.TournamentMode {
        var currentMatch := s.matchSchedule[s.currentMatchIndex];
        var matchWinner := if s.winner.value == GameEngine.PLAYER1_WINS then currentMatch.p1 else currentMatch.p2;
        if currentMatch.p2 == BYE {
          r := AdvanceTournament(s, currentMatch.p1, js, canvas, coin);
        } else {
          r := AdvanceTournament(s, matchWinner, js, canvas, coin);
        }
      } else {
        r := GameReset(s, canvas, coin);
      }
    } else if !s.isStarted {
      r := s.(isStarted := true, isPaused := false);
    } else {
      r := s.(isPaused := !s.isPaused);
    }
  }

  /** Finding, as written: whatever the roster of two players or more,
      once the tournament has started and its first match has been won,
      the result click only resets the game; the first round stays as it
      was paired, with no result, the first match stays current and no
      champion is named. */
  method TournamentStalls(s: Page, js: seq<nat>, w: string, canvas: Option<LegacyEngine.Canvas>, coin: real)
    returns (r: Page)
    requires Constants.ValidDraws(js, |s.players|) && |s.players| >= 2 && w != ""
    ensures r.matchSchedule == Pairings(Constants.Shuffled(s.players, js)) && r.currentMatchIndex == 0
    ensures r.tournamentState == PongApp.InProgress && r.tournamentWinner == s.tournamentWinner
    ensures forall k :: 0 <= k < |r.matchSchedule| ==> r.matchSchedule[k].winner == None
  {
    var started := StartTournament(s, js, canvas, coin);
    r := ButtonClick(started.(winner := Some(w)), [], canvas, coin);
  }

  /** Advancing from the first match of a round records `x` there: the
      second match follows, or a one-match round names `x` champion. */
  lemma {:induction false} FirstResultRecorded(t: Page, x: string, js: seq<nat>, canvas: Option<LegacyEngine.Canvas>,
                                               coin: real, r: Page)
    requires t.currentMatchIndex == 0 && |t.matchSchedule| >= 1 && x != BYE
    requires Advanced(t, x, js, canvas, coin, r)
    ensures |t.matchSchedule| > 1 ==>
      |r.matchSchedule| > 1 && r.currentMatchIndex == 1 && r.matchSchedule[0].winner == Some(x) &&
      r.tournamentState == t.tournamentState
    ensures |t.matchSchedule| == 1 ==> r.tournamentState == PongApp.Finished && r.tournamentWinner == Some(x)
  {
    var updated := RecordWinner(t.matchSchedule, 0, x);
    if |t.matchSchedule| == 1 {
      assert updated == [t.matchSchedule[0].(winner := Some(x))];
      assert Decided(updated[0]);
      RoundWinnersInOrder(updated);
      assert RoundWinners(updated) == [x];
    }
  }

  /** With the intended start, the same click records the first match:
      with more than two players the second match becomes current, with two
      a registered player is champion. */
  method TournamentAdvances(s: Page, js: seq<nat>, w: string, canvas: Option<LegacyEngine.Canvas>, coin: real)
    returns (r: Page)
    requires Constants.ValidDraws(js, |s.players|) && s.gameMode == PongApp.TournamentMode
    requires Roster(s.players) && BYE !in s.players && |s.players| >= 2 && w != ""
    ensures |s.players| > 2 ==>
      |r.matchSchedule| > 1 && r.currentMatchIndex == 1 && r.matchSchedule[0].winner.Some? &&
      r.tournamentState == PongApp.InProgress
    ensures |s.players| == 2 ==>
      r.tournamentState == PongApp.Finished && r.tournamentWinner.Some? && r.tournamentWinner.value in s.players
  {
    var started := StartTournamentIntended(s, js, canvas, coin);
    FirstResultRegistered(s.players, js, w);
    var t := started.(winner := Some(w));
    var x := PongApp.MatchResult(t.matchSchedule[0], w);
    var js' := seq(|WinnersAfter(t, x)|, k => 0);
    r := ButtonClick(t, js', canvas, coin);
    FirstResultRecorded(t, x, js', canvas, coin, r);
  }

  /** The first match of a shuffled roster is won by a registered player. */
  lemma {:induction false} FirstResultRegistered(players: seq<string>, js: seq<nat>, w: string)
    requires Constants.ValidDraws(js, |players|) && Roster(players) && BYE !in players && |players| >= 2
    ensures var ms := Pairings(Constants.Shuffled(players, js));
      |ms| == (|players| + 1) / 2 && PongApp.MatchResult(ms[0], w) in players && PongApp.MatchResult(ms[0], w) != BYE
  {
    assert "" !in players;
    var shuffled := Constants.Shuffled(players, js);
    Constants.ShuffledPermutes(players, js);
    PongApp.SameMembers(shuffled, players);
    var m := Pairings(shuffled)[0];
    assert m.p1 == shuffled[0] && shuffled[0] in players;
    assert shuffled[1] in players;
    assert m.p2 == shuffled[1];
  }
}
