/** The component version of the Pong page: its React state as one record,
    and each handler as the record the state settles to once the handler's
    updates are applied (a handler reads the values of the render it was
    created in, and later updates of the same field win). The ball and
    paddles are the hook's objects, reset in place by `resetBall`. */
module PongApp {
  import opened Optional
  import opened Tournament
  import opened Keyboard
  import Constants
  import GameEngine

  datatype GameMode = OnePlayer | TwoPlayers | TournamentMode

  datatype TournamentState = Setup | InProgress | Finished

  /** The canvas dimensions `resetBall` reads. */
  datatype Canvas = Canvas(width: real, height: real)

  /** The component's state; `objects` is `gameObjects.current`, absent
      until the hook has created it. */
  datatype Screen = Screen(
    score: GameEngine.Score, isPaused: bool, winner: Option<string>, gameMode: GameMode,
    isStarted: bool, players: seq<string>, newPlayerName: string,
    tournamentState: TournamentState, matchSchedule: seq<Match>, currentMatchIndex: int,
    tournamentWinner: Option<string>, movements: Movements,
    objects: Option<GameEngine.Objects>)

  /** The state of a freshly mounted page. */
  const Mounted: Screen := Screen(GameEngine.Score(0, 0), false, None, OnePlayer, false, [], "",
                                  Setup, [], 0, None, Movements(Idle, Idle), None)

  /** The tournament part of two states agrees. */
  predicate SameTournament(a: Screen, b: Screen)
  {
    a.players == b.players && a.newPlayerName == b.newPlayerName &&
    a.tournamentState == b.tournamentState && a.matchSchedule == b.matchSchedule &&
    a.currentMatchIndex == b.currentMatchIndex && a.tournamentWinner == b.tournamentWinner
  }

  /** `r` is `s` after a game reset: a blank, unstarted, unpaused game with
      no key held, and the ball served again when there are a canvas and
      objects to serve on. */
  predicate GameWasReset(s: Screen, r: Screen, canvas: Option<Canvas>, coin: real, c: GameEngine.Config)
    requires GameEngine.ValidConfig(c)
  {
    r.score == GameEngine.Score(0, 0) && r.winner == None && !r.isPaused && !r.isStarted &&
    r.movements == Movements(Idle, Idle) &&
    r.objects == (if canvas.Some? && s.objects.Some? then
                    Some(GameEngine.Served(s.objects.value, canvas.value.width, canvas.value.height, coin, c))
                  else s.objects)
  }

  /** `handleGameReset`. */
  function GameReset(s: Screen, canvas: Option<Canvas>, coin: real, c: GameEngine.Config): (r: Screen)
    requires GameEngine.ValidConfig(c)
    ensures GameWasReset(s, r, canvas, coin, c)
    ensures SameTournament(r, s) && r.gameMode == s.gameMode
  {
    var objects := if canvas.Some? && s.objects.Some? then
                     Some(GameEngine.Served(s.objects.value, canvas.value.width, canvas.value.height, coin, c))
                   else s.objects;
    s.(objects := objects, score := GameEngine.Score(0, 0), winner := None, isPaused := false,
       isStarted := false, movements := Movements(Idle, Idle))
  }

  /** `handleGameModeChange`: a reset, the new mode, and a cleared
      tournament when the tournament mode is entered or left. */
  function GameModeChange(s: Screen, newMode: GameMode, canvas: Option<Canvas>, coin: real, c: GameEngine.Config): (r: Screen)
    requires GameEngine.ValidConfig(c)
    ensures GameWasReset(s, r, canvas, coin, c) && r.gameMode == newMode
    ensures (newMode == TournamentMode || s.gameMode == TournamentMode) ==>
      r.players == [] && r.tournamentState == Setup && r.matchSchedule == [] &&
      r.currentMatchIndex == 0 && r.tournamentWinner == None && r.newPlayerName == s.newPlayerName
    ensures !(newMode == TournamentMode || s.gameMode == TournamentMode) ==> SameTournament(r, s)
  {
    var reset := GameReset(s, canvas, coin, c).(gameMode := newMode);
    if newMode == TournamentMode || s.gameMode == TournamentMode then
      reset.(players := [], tournamentState := Setup, matchSchedule := [], currentMatchIndex := 0,
             tournamentWinner := None)
    else reset
  }

  /** `startTournament` as written: with two players or more, the shuffled
      roster is paired into the first round, the first match is current,
      the tournament is in progress, the game mode becomes two players and
      the game is reset. The shuffle's draws are `js`. */
  function StartTournament(s: Screen, js: seq<nat>, canvas: Option<Canvas>, coin: real, c: GameEngine.Config): (r: Screen)
    requires GameEngine.ValidConfig(c) && Constants.ValidDraws(js, |s.players|)
    ensures |s.players| < 2 ==> r == s
    ensures |s.players| >= 2 ==>
      r.gameMode == TwoPlayers && r.tournamentState == InProgress && r.currentMatchIndex == 0 &&
      r.matchSchedule == Pairings(Constants.Shuffled(s.players, js)) &&
      |r.matchSchedule| == (|s.players| + 1) / 2 && GameWasReset(s, r, canvas, coin, c) &&
      r.players == s.players && r.tournamentWinner == s.tournamentWinner
  {
    if |s.players| < 2 then s
    else
      Constants.ShuffledPermutes(s.players, js);
      var matches := Pairings(Constants.Shuffled(s.players, js));
      GameReset(s.(matchSchedule := matches, currentMatchIndex := 0, tournamentState := InProgress,
                   gameMode := TwoPlayers), canvas, coin, c)
  }

  /** `startTournament` as evidently intended: the same, but the page stays
      in tournament mode, so that a finished match is recorded. */
  function StartTournamentIntended(s: Screen, js: seq<nat>, canvas: Option<Canvas>, coin: real, c: GameEngine.Config): (r: Screen)
    requires GameEngine.ValidConfig(c) && Constants.ValidDraws(js, |s.players|)
    ensures |s.players| < 2 ==> r == s
    ensures |s.players| >= 2 ==>
      r.gameMode == s.gameMode && r.tournamentState == InProgress && r.currentMatchIndex == 0 &&
      r.matchSchedule == Pairings(Constants.Shuffled(s.players, js)) &&
      |r.matchSchedule| == (|s.players| + 1) / 2 && GameWasReset(s, r, canvas, coin, c) &&
      r.players == s.players && r.tournamentWinner == s.tournamentWinner
  {
    if |s.players| < 2 then s
    else
      Constants.ShuffledPermutes(s.players, js);
      var matches := Pairings(Constants.Shuffled(s.players, js));
      GameReset(s.(matchSchedule := matches, currentMatchIndex := 0, tournamentState := InProgress),
                canvas, coin, c)
  }

  /** `x` plays in the match `m`. */
  predicate Plays(m: Match, x: string)
  {
    m.p1 == x || m.p2 == x
  }

  /** `x` plays in at most one of the matches. */
  predicate OneSeat(ms: seq<Match>, x: string)
  {
    forall k, k' {:trigger Plays(ms[k], x), Plays(ms[k'], x)} ::
      0 <= k < |ms| && 0 <= k' < |ms| && Plays(ms[k], x) && Plays(ms[k'], x) ==> k == k'
  }

  /** `x` plays in one of the matches. */
  predicate Seated(ms: seq<Match>, x: string)
  {
    exists k :: 0 <= k < |ms| && Plays(ms[k], x)
  }

  /** The properties of the first round of any ordering of a roster: every
      player has exactly one seat, in exactly one match. */
  predicate SeatsRoster(players: seq<string>, ms: seq<Match>)
  {
    (forall x :: x in players ==> Seated(ms, x)) &&
    (forall x :: x in players ==> OneSeat(ms, x)) &&
    (forall k :: 0 <= k < |ms| ==> ms[k].p1 != ms[k].p2) &&
    (forall k :: 0 <= k < |ms| ==> ms[k].p1 in players && (ms[k].p2 in players || ms[k].p2 == BYE)) &&
    (forall k :: 0 <= k < |ms| ==> ms[k].winner == None) &&
    (forall k :: 0 <= k < |ms| ==> (ms[k].p2 == BYE <==> (|players| % 2 == 1 && k == |ms| - 1)))
  }

  /** Two sequences with the same multiset have the same members. */
  lemma {:induction false} SameMembers(a: seq<string>, b: seq<string>)
    requires multiset(a) == multiset(b)
    ensures forall x :: x in a <==> x in b
  {
    forall x ensures x in a <==> x in b {
      assert x in a <==> x in multiset(a);
      assert x in b <==> x in multiset(b);
    }
  }

  /** Pairing any rearrangement of a roster without the filler name seats
      everyone, and only the roster, with the filler only last. */
  lemma {:induction false} PairingsSeatRoster(players: seq<string>, shuffled: seq<string>)
    requires multiset(shuffled) == multiset(players)
    requires Roster(players) && BYE !in players
    ensures SeatsRoster(players, Pairings(shuffled))
  {
    SameMembers(shuffled, players);
    assert |shuffled| == |players| by {
      assert |multiset(shuffled)| == |multiset(players)|;
    }
    assert Named(shuffled) by {
      forall i | 0 <= i < |shuffled| ensures shuffled[i] != "" {
        assert shuffled[i] in players;
      }
    }
    SeatsEveryone(players, shuffled);
    PairingsUseOnlyPlayers(shuffled);
    ByeSeatLast(shuffled);
    DistinctPermutation(players, shuffled);
    SeatsOnce(shuffled);
  }

  /** No name occurs twice. */
  predicate Distinct(xs: seq<string>)
  {
    forall i, j :: 0 <= i < j < |xs| ==> xs[i] != xs[j]
  }

  /** A name occurs at most once in a sequence without repetitions. */
  lemma {:induction false} DistinctCount(xs: seq<string>, x: string)
    requires Distinct(xs)
    ensures multiset(xs)[x] <= 1
    decreases |xs|
  {
    if xs != [] {
      assert xs == [xs[0]] + xs[1..];
      assert Distinct(xs[1..]);
      DistinctCount(xs[1..], x);
      if x == xs[0] {
        assert x !in xs[1..];
      }
    }
  }

  /** Rearranging a sequence without repetitions keeps it without them. */
  lemma {:induction false} DistinctPermutation(players: seq<string>, shuffled: seq<string>)
    requires multiset(shuffled) == multiset(players) && Distinct(players)
    ensures Distinct(shuffled)
  {
    forall i, j | 0 <= i < j < |shuffled| ensures shuffled[i] != shuffled[j] {
      if shuffled[i] == shuffled[j] {
        var x := shuffled[i];
        assert shuffled == shuffled[..i] + [x] + shuffled[i + 1..j] + [x] + shuffled[j + 1..];
        assert multiset(shuffled)[x] >= 2;
        DistinctCount(players, x);
        assert false;
      }
    }
  }

  /** Pairing named players without repetitions and without the filler
      seats each of them in one match only, never against itself. */
  lemma {:induction false} SeatsOnce(shuffled: seq<string>)
    requires Named(shuffled) && Distinct(shuffled) && BYE !in shuffled
    ensures var ms := Pairings(shuffled);
      (forall x :: x in shuffled ==> OneSeat(ms, x)) &&
      (forall k :: 0 <= k < |ms| ==> ms[k].p1 != ms[k].p2)
  {
    var ms := Pairings(shuffled);
    forall x | x in shuffled ensures OneSeat(ms, x) {
      forall k, k' | 0 <= k < |ms| && 0 <= k' < |ms| && Plays(ms[k], x) && Plays(ms[k'], x)
        ensures k == k'
      {
        var i := SeatOf(shuffled, k, x);
        var i' := SeatOf(shuffled, k', x);
      }
    }
    forall k | 0 <= k < |ms| ensures ms[k].p1 != ms[k].p2 {
      assert ms[k].p1 == shuffled[2 * k];
      if 2 * k + 1 < |shuffled| {
        assert ms[k].p2 == shuffled[2 * k + 1];
      }
    }
  }

  /** The roster position of a player who plays in match k. */
  lemma SeatOf(shuffled: seq<string>, k: nat, x: string) returns (i: nat)
    requires Named(shuffled) && BYE !in shuffled && x in shuffled
    requires k < |Pairings(shuffled)| && Plays(Pairings(shuffled)[k], x)
    ensures i < |shuffled| && shuffled[i] == x && i / 2 == k
  {
    var ms := Pairings(shuffled);
    if ms[k].p1 == x {
      i := 2 * k;
    } else {
      i := 2 * k + 1;
    }
  }

  lemma {:induction false} SeatsEveryone(players: seq<string>, shuffled: seq<string>)
    requires Named(shuffled) && forall j :: 0 <= j < |players| ==> players[j] in shuffled
    ensures forall x :: x in players ==> Seated(Pairings(shuffled), x)
  {
    var ms := Pairings(shuffled);
    PairingsPlaceEveryone(shuffled);
    forall x | x in players
      ensures Seated(ms, x)
    {
      var i :| 0 <= i < |shuffled| && shuffled[i] == x;
      var k := i / 2;
      assert ms[k].p1 == x || ms[k].p2 == x;
    }
  }

  lemma {:induction false} ByeSeatLast(shuffled: seq<string>)
    requires Named(shuffled) && BYE !in shuffled
    ensures var ms := Pairings(shuffled);
      forall k :: 0 <= k < |ms| ==> (ms[k].p2 == BYE <==> (|shuffled| % 2 == 1 && k == |ms| - 1))
  {
    ByeOnlyLast(shuffled);
    var ms := Pairings(shuffled);
    forall k | 0 <= k < |ms| ensures !(2 * k + 1 < |shuffled| && shuffled[2 * k + 1] == BYE) {
      if 2 * k + 1 < |shuffled| {
        assert shuffled[2 * k + 1] in shuffled;
      }
    }
  }

  /** Every registered player has a seat in the first round, which holds
      only registered players and the filler, no result yet, and the filler
      at most in the last match of an odd roster. */
  lemma {:induction false} StartTournamentSeatsEveryone(s: Screen, js: seq<nat>, canvas: Option<Canvas>, coin: real, c: GameEngine.Config)
    requires GameEngine.ValidConfig(c) && Constants.ValidDraws(js, |s.players|)
    requires Roster(s.players) && BYE !in s.players && |s.players| >= 2
    ensures SeatsRoster(s.players, StartTournament(s, js, canvas, coin, c).matchSchedule)
    ensures SeatsRoster(s.players, StartTournamentIntended(s, js, canvas, coin, c).matchSchedule)
  {
    Constants.ShuffledPermutes(s.players, js);
    PairingsSeatRoster(s.players, Constants.Shuffled(s.players, js));
  }

  /** `advanceTournament`: the result of the current match is recorded;
      the next match of the round follows, or the round closes: one winner
      is the champion, more are paired into the next round. */
  function AdvanceTournament(s: Screen, matchWinner: string, canvas: Option<Canvas>, coin: real, c: GameEngine.Config): (r: Screen)
    requires GameEngine.ValidConfig(c)
    ensures s.currentMatchIndex < |s.matchSchedule| - 1 ==>
      r.matchSchedule == RecordWinner(s.matchSchedule, s.currentMatchIndex, matchWinner) &&
      r.currentMatchIndex == s.currentMatchIndex + 1 && r.tournamentState == s.tournamentState &&
      r.tournamentWinner == s.tournamentWinner && GameWasReset(s, r, canvas, coin, c)
    ensures s.currentMatchIndex >= |s.matchSchedule| - 1 ==>
      var winners := RoundWinners(RecordWinner(s.matchSchedule, s.currentMatchIndex, matchWinner));
      (|winners| == 1 ==>
         r == s.(matchSchedule := RecordWinner(s.matchSchedule, s.currentMatchIndex, matchWinner),
                 tournamentWinner := Some(winners[0]), tournamentState := Finished)) &&
      (|winners| != 1 ==>
         r.matchSchedule == Pairings(winners) && r.currentMatchIndex == 0 &&
         r.tournamentState == s.tournamentState && r.tournamentWinner == s.tournamentWinner &&
         GameWasReset(s, r, canvas, coin, c))
    ensures r.players == s.players && r.gameMode == s.gameMode
  {
    var updatedSchedule := RecordWinner(s.matchSchedule, s.currentMatchIndex, matchWinner);
    if s.currentMatchIndex < |s.matchSchedule| - 1 then
      GameReset(s.(matchSchedule := updatedSchedule, currentMatchIndex := s.currentMatchIndex + 1), canvas, coin, c)
    else
      var winners := RoundWinners(updatedSchedule);
      if |winners| == 1 then
        s.(matchSchedule := updatedSchedule, tournamentWinner := Some(winners[0]), tournamentState := Finished)
      else
        GameReset(s.(matchSchedule := Pairings(winners), currentMatchIndex := 0), canvas, coin, c)
  }

  /** `handleAddPlayer`: the typed name joins the roster when it is
      non-empty after trimming, new, and there is room; the input is then
      cleared. */
  function AddPlayerClick(s: Screen): (r: Screen)
    ensures r.players == AddPlayer(s.players, s.newPlayerName)
    ensures r.newPlayerName == (if r.players != s.players then "" else s.newPlayerName)
    ensures r.(players := s.players, newPlayerName := s.newPlayerName) == s
  {
    var players := AddPlayer(s.players, s.newPlayerName);
    if players != s.players then s.(players := players, newPlayerName := "") else s
  }

  /** The engine's winner text is set and not empty. */
  predicate HasWinner(s: Screen)
  {
    s.winner.Some? && s.winner.value != ""
  }

  /** The player a tournament click advances: the first player of a match
      against the filler, otherwise the side the engine named. */
  function MatchResult(m: Match, winner: string): (w: string)
    ensures m.p2 == BYE ==> w == m.p1
    ensures m.p2 != BYE ==> (w == m.p1 <==> winner == GameEngine.PLAYER1_WINS || m.p1 == m.p2)
    ensures w == m.p1 || w == m.p2
  {
    var matchWinner := if winner == GameEngine.PLAYER1_WINS then m.p1 else m.p2;
    if m.p2 == BYE then m.p1 else matchWinner
  }

  /** `handleButtonClick`. The tournament branch reads the current match,
      which must exist (the page fails on a missing one). */
  function ButtonClick(s: Screen, canvas: Option<Canvas>, coin: real, c: GameEngine.Config): (r: Screen)
    requires GameEngine.ValidConfig(c)
    requires HasWinner(s) && s.gameMode == TournamentMode ==> 0 <= s.currentMatchIndex < |s.matchSchedule|
    ensures HasWinner(s) && s.gameMode == TournamentMode ==>
      r == AdvanceTournament(s, MatchResult(s.matchSchedule[s.currentMatchIndex], s.winner.value), canvas, coin, c)
    ensures HasWinner(s) && s.gameMode != TournamentMode ==>
      GameWasReset(s, r, canvas, coin, c) && SameTournament(r, s) && r.gameMode == s.gameMode
    ensures !HasWinner(s) && !s.isStarted ==> r == s.(isStarted := true, isPaused := false)
    ensures !HasWinner(s) && s.isStarted ==> r == s.(isPaused := !s.isPaused)
  {
    if HasWinner(s) then
      if s.gameMode == TournamentMode then
        var m := s.matchSchedule[s.currentMatchIndex];
        AdvanceTournament(s, MatchResult(m, s.winner.value), canvas, coin, c)
      else GameReset(s, canvas, coin, c)
    else if !s.isStarted then s.(isStarted := true, isPaused := false)
    else s.(isPaused := !s.isPaused)
  }

  /** Finding, as written: once a tournament has started, a finished match
      only resets the game; the result is never recorded, so the first
      match stays current and the tournament never ends. */
  lemma {:induction false} StartedTournamentNeverAdvances(s: Screen, js: seq<nat>, w: string, canvas: Option<Canvas>, coin: real, c: GameEngine.Config)
    requires GameEngine.ValidConfig(c) && Constants.ValidDraws(js, |s.players|) && |s.players| >= 2
    requires w != ""
    ensures var t := StartTournament(s, js, canvas, coin, c);
      var r := ButtonClick(t.(winner := Some(w)), canvas, coin, c);
      r.matchSchedule == t.matchSchedule && r.currentMatchIndex == 0 &&
      r.tournamentState == InProgress && r.tournamentWinner == s.tournamentWinner &&
      (forall k :: 0 <= k < |r.matchSchedule| ==> r.matchSchedule[k].winner == None)
  {
    var t := StartTournament(s, js, canvas, coin, c);
    assert t.gameMode == TwoPlayers;
    Constants.ShuffledPermutes(s.players, js);
  }

  /** With the intended start, the first finished match is recorded: the
      next match becomes current, or, for two players, the winner is the
      champion. */
  lemma {:induction false} IntendedTournamentAdvances(s: Screen, js: seq<nat>, w: string, canvas: Option<Canvas>, coin: real, c: GameEngine.Config)
    requires GameEngine.ValidConfig(c) && Constants.ValidDraws(js, |s.players|)
    requires s.gameMode == TournamentMode && Roster(s.players) && BYE !in s.players && |s.players| >= 2
    requires w != ""
    ensures var t := StartTournamentIntended(s, js, canvas, coin, c);
      var r := ButtonClick(t.(winner := Some(w)), canvas, coin, c);
      (|s.players| > 2 ==> r.currentMatchIndex == 1 && r.matchSchedule[0].winner.Some? && r.tournamentState == InProgress) &&
      (|s.players| == 2 ==>
         r.tournamentState == Finished && r.tournamentWinner.Some? && r.tournamentWinner.value in s.players)
  {
    var t := StartTournamentIntended(s, js, canvas, coin, c);
    StartTournamentSeatsEveryone(s, js, canvas, coin, c);
    assert t.matchSchedule[0].p1 in s.players;
    ResultClick(t.(winner := Some(w)), canvas, coin, c);
  }

  /** A result click on the first match of a round whose players are
      registered: the match is decided and the next one becomes current,
      or a one-match round crowns a registered champion. */
  lemma {:induction false} ResultClick(t: Screen, canvas: Option<Canvas>, coin: real, c: GameEngine.Config)
    requires GameEngine.ValidConfig(c) && HasWinner(t) && t.gameMode == TournamentMode
    requires t.currentMatchIndex == 0 && |t.matchSchedule| >= 1 && t.tournamentState == InProgress
    requires t.matchSchedule[0].p1 in t.players && t.matchSchedule[0].p1 != BYE
    requires t.matchSchedule[0].p2 in t.players || t.matchSchedule[0].p2 == BYE
    ensures var r := ButtonClick(t, canvas, coin, c);
      (|t.matchSchedule| > 1 ==> r.currentMatchIndex == 1 && r.matchSchedule[0].winner.Some? && r.tournamentState == InProgress) &&
      (|t.matchSchedule| == 1 ==>
         r.tournamentState == Finished && r.tournamentWinner.Some? && r.tournamentWinner.value in t.players)
  {
    var m := t.matchSchedule[0];
    var x := MatchResult(m, t.winner.value);
    var r := ButtonClick(t, canvas, coin, c);
    assert r == AdvanceTournament(t, x, canvas, coin, c);
    if |t.matchSchedule| == 1 {
      var updated := RecordWinner(t.matchSchedule, 0, x);
      assert updated == [m.(winner := Some(x))];
      assert Decided(updated[0]);
      RoundWinnersInOrder(updated);
      assert RoundWinners(updated) == [x];
    }
  }

  /** The page's events, in the order a user can cause them. */
  datatype Event =
    | ResetClick
    | ModeChange(newMode: GameMode)
    | NameTyped(name: string)
    | AddPlayerSubmit
    | StartTournamentClick(js: seq<nat>)
    | EngineReport(score: GameEngine.Score, winner: Option<string>)
    | KeyDown(key: string)
    | KeyUp(key: string)
    | Button

  /** What an event needs to be handled: shuffle draws for the roster, and
      a current match when a tournament result is clicked. */
  predicate Enabled(s: Screen, e: Event)
  {
    (e.StartTournamentClick? ==> Constants.ValidDraws(e.js, |s.players|)) &&
    (e.Button? && HasWinner(s) && s.gameMode == TournamentMode ==> 0 <= s.currentMatchIndex < |s.matchSchedule|)
  }

  /** The page's reaction to an event, with the intended tournament start. */
  function Step(s: Screen, e: Event, canvas: Option<Canvas>, coin: real, c: GameEngine.Config): (r: Screen)
    requires GameEngine.ValidConfig(c) && Enabled(s, e)
    ensures !e.ModeChange? && !e.StartTournamentClick? ==> r.gameMode == s.gameMode
    ensures e.StartTournamentClick? ==> r.gameMode == (if |s.players| >= 2 then TwoPlayers else s.gameMode)
  {
    match e
    case ResetClick => GameReset(s, canvas, coin, c)
    case ModeChange(m) => GameModeChange(s, m, canvas, coin, c)
    case NameTyped(name) => s.(newPlayerName := name)
    case AddPlayerSubmit => AddPlayerClick(s)
    case StartTournamentClick(js) => StartTournament(s, js, canvas, coin, c)
    case EngineReport(score, winner) => s.(score := score, winner := winner)
    case KeyDown(key) => s.(movements := Keyboard.KeyDown(s.movements, key, s.gameMode == OnePlayer))
    case KeyUp(key) => s.(movements := Keyboard.KeyUp(s.movements, key))
    case Button => ButtonClick(s, canvas, coin, c)
  }

  /** The tournament bookkeeping the page keeps consistent: a roster of
      real players, a schedule seating only them (or the filler) with
      results naming one of the two seated, a current match while the
      tournament is in progress, and a champion from the roster. */
  predicate Wellformed(s: Screen)
  {
    Roster(s.players) && BYE !in s.players &&
    (s.tournamentState == InProgress ==> 0 <= s.currentMatchIndex < |s.matchSchedule|) &&
    ScheduleOf(s.players, s.matchSchedule) &&
    (s.tournamentWinner.Some? ==> s.tournamentWinner.value in s.players)
  }

  /** Every match seats players of the roster or the filler, and a result
      names one of the two seated. */
  predicate ScheduleOf(players: seq<string>, ms: seq<Match>)
  {
    forall k :: 0 <= k < |ms| ==>
      ms[k].p1 in players && (ms[k].p2 in players || ms[k].p2 == BYE) &&
      (ms[k].winner.Some? ==> ms[k].winner.value == ms[k].p1 || ms[k].winner.value == ms[k].p2)
  }

  lemma MountedWellformed()
    ensures Wellformed(Mounted)
  {
  }

  /** A schedule of a larger roster is still one of it. */
  lemma {:induction false} ScheduleOfGrows(players: seq<string>, more: seq<string>, ms: seq<Match>)
    requires ScheduleOf(players, ms) && forall x :: x in players ==> x in more
    ensures ScheduleOf(more, ms)
  {
    forall k | 0 <= k < |ms| ensures ms[k].p1 in more && (ms[k].p2 in more || ms[k].p2 == BYE) {
      assert ms[k].p1 in players;
    }
  }

  /** Recording one of the two seated players keeps a schedule. */
  lemma {:induction false} RecordWinnerKeepsSchedule(players: seq<string>, ms: seq<Match>, index: int, x: string)
    requires ScheduleOf(players, ms) && 0 <= index < |ms| && (x == ms[index].p1 || x == ms[index].p2)
    ensures ScheduleOf(players, RecordWinner(ms, index, x))
  {
  }

  /** The winners of a round of the roster are players of the roster. */
  lemma {:induction false} RoundWinnersFromRoster(players: seq<string>, ms: seq<Match>)
    requires ScheduleOf(players, ms)
    ensures forall x :: x in RoundWinners(ms) ==> x in players
  {
    forall x | x in RoundWinners(ms) ensures x in players {
      var k :| 0 <= k < |ms| && ms[k].winner == Some(x);
      assert x == ms[k].p1 || x == ms[k].p2;
    }
  }

  /** A new round paired from some players of the roster is a schedule of
      the roster without results. */
  lemma {:induction false} PairingsScheduleOf(players: seq<string>, ws: seq<string>)
    requires forall x :: x in ws ==> x in players
    ensures ScheduleOf(players, Pairings(ws))
  {
    PairingsUseOnlyPlayers(ws);
  }

  /** Advancing with one of the current match's players keeps the
      bookkeeping consistent. */
  lemma {:induction false} AdvanceKeepsWellformed(s: Screen, x: string, canvas: Option<Canvas>, coin: real, c: GameEngine.Config)
    requires GameEngine.ValidConfig(c) && Wellformed(s) && 0 <= s.currentMatchIndex < |s.matchSchedule|
    requires (x == s.matchSchedule[s.currentMatchIndex].p1 || x == s.matchSchedule[s.currentMatchIndex].p2) && x != BYE
    ensures Wellformed(AdvanceTournament(s, x, canvas, coin, c))
  {
    var updated := RecordWinner(s.matchSchedule, s.currentMatchIndex, x);
    RecordWinnerKeepsSchedule(s.players, s.matchSchedule, s.currentMatchIndex, x);
    if s.currentMatchIndex >= |s.matchSchedule| - 1 {
      var winners := RoundWinners(updated);
      RoundWinnersFromRoster(s.players, updated);
      assert Decided(updated[s.currentMatchIndex]);
      assert x in winners;
      if |winners| != 1 {
        PairingsScheduleOf(s.players, winners);
      } else {
        assert winners[0] in winners;
      }
    }
  }

  /** Every event keeps the tournament bookkeeping consistent, provided no
      one registers under the filler's name. */
  lemma {:induction false} StepKeepsWellformed(s: Screen, e: Event, canvas: Option<Canvas>, coin: real, c: GameEngine.Config)
    requires GameEngine.ValidConfig(c) && Enabled(s, e) && Wellformed(s)
    requires e.AddPlayerSubmit? ==> Trim(s.newPlayerName) != BYE
    ensures Wellformed(Step(s, e, canvas, coin, c))
  {
    match e
    case AddPlayerSubmit =>
      AddPlayerKeepsWellformed(s);
    case StartTournamentClick(js) =>
      StartKeepsWellformed(s, js, canvas, coin, c);
    case Button =>
      ButtonKeepsWellformed(s, canvas, coin, c);
    case ModeChange(m) =>
      ModeChangeKeepsWellformed(s, m, canvas, coin, c);
    case ResetClick =>
      SameTournamentWellformed(s, GameReset(s, canvas, coin, c));
    case NameTyped(name) =>
      SameTournamentWellformed(s.(newPlayerName := name), Step(s, e, canvas, coin, c));
    case _ =>
      SameTournamentWellformed(s, Step(s, e, canvas, coin, c));
  }
  /** As written, no result is ever recorded: the tournament mode is only
      entered with an empty schedule, a started tournament leaves it, and
      every match's result stays unset and no champion is named. */
  predicate NothingRecorded(s: Screen)
  {
    (s.gameMode == TournamentMode ==> s.matchSchedule == []) &&
    s.tournamentWinner == None &&
    (forall k :: 0 <= k < |s.matchSchedule| ==> s.matchSchedule[k].winner == None)
  }

  /** Finding, as written, over every run of the page: the mounted page has
      nothing recorded, and no event changes that, so no tournament ever
      gets a champion. */
  lemma {:induction false} AsWrittenNothingRecorded(s: Screen, e: Event, canvas: Option<Canvas>, coin: real, c: GameEngine.Config)
    requires GameEngine.ValidConfig(c) && Enabled(s, e) && NothingRecorded(s)
    ensures NothingRecorded(Mounted)
    ensures NothingRecorded(Step(s, e, canvas, coin, c))
    ensures Step(s, e, canvas, coin, c).tournamentWinner == None
  {
    match e
    case StartTournamentClick(js) =>
      if |s.players| >= 2 {
        var ms := Pairings(Constants.Shuffled(s.players, js));
        assert forall k :: 0 <= k < |ms| ==> ms[k].winner == None;
      }
    case _ =>
  }


  /** The bookkeeping lives in the tournament fields alone. */
  lemma SameTournamentWellformed(s: Screen, r: Screen)
    requires Wellformed(s) && SameTournament(r, s)
    ensures Wellformed(r)
  {
  }

  lemma {:induction false} AddPlayerKeepsWellformed(s: Screen)
    requires Wellformed(s) && Trim(s.newPlayerName) != BYE
    ensures Wellformed(AddPlayerClick(s))
  {
    var r := AddPlayerClick(s);
    AddPlayerKeepsRoster(s.players, s.newPlayerName);
    ScheduleOfGrows(s.players, r.players, s.matchSchedule);
  }

  lemma {:induction false} StartKeepsWellformed(s: Screen, js: seq<nat>, canvas: Option<Canvas>, coin: real,
                                                c: GameEngine.Config)
    requires GameEngine.ValidConfig(c) && Constants.ValidDraws(js, |s.players|) && Wellformed(s)
    ensures Wellformed(StartTournament(s, js, canvas, coin, c))
    ensures Wellformed(StartTournamentIntended(s, js, canvas, coin, c))
  {
    if |s.players| >= 2 {
      Constants.ShuffledPermutes(s.players, js);
      var shuffled := Constants.Shuffled(s.players, js);
      SameMembers(shuffled, s.players);
      PairingsScheduleOf(s.players, shuffled);
    }
  }

  lemma {:induction false} ButtonKeepsWellformed(s: Screen, canvas: Option<Canvas>, coin: real, c: GameEngine.Config)
    requires GameEngine.ValidConfig(c) && Wellformed(s)
    requires HasWinner(s) && s.gameMode == TournamentMode ==> 0 <= s.currentMatchIndex < |s.matchSchedule|
    ensures Wellformed(ButtonClick(s, canvas, coin, c))
  {
    var r := ButtonClick(s, canvas, coin, c);
    if HasWinner(s) && s.gameMode == TournamentMode {
      var m := s.matchSchedule[s.currentMatchIndex];
      AdvanceKeepsWellformed(s, MatchResult(m, s.winner.value), canvas, coin, c);
    } else {
      SameTournamentWellformed(s, r);
    }
  }

  lemma {:induction false} ModeChangeKeepsWellformed(s: Screen, m: GameMode, canvas: Option<Canvas>, coin: real,
                                                     c: GameEngine.Config)
    requires GameEngine.ValidConfig(c) && Wellformed(s)
    ensures Wellformed(GameModeChange(s, m, canvas, coin, c))
  {
    var r := GameModeChange(s, m, canvas, coin, c);
    if !(m == TournamentMode || s.gameMode == TournamentMode) {
      SameTournamentWellformed(s, r);
    }
  }
}
