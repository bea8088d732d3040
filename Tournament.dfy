/** The knockout schedule shared by both React Pong components: pairing
    players two by two with a bye filler, recording a match result,
    collecting a round's winners, and the bounded, duplicate-free roster. */
module Tournament {
  import opened Optional

  /** The filler name of a player who passes the round without playing. */
  const BYE: string := "BYE (Pasa de ronda)"

  /** The roster limit of `handleAddPlayer`. */
  const MAX_PLAYERS: nat := 16

  datatype Match = Match(p1: string, p2: string, winner: Option<string>)

  /** `name || BYE`: the empty string is falsy and is replaced by the filler. */
  function OrBye(name: string): (r: string)
    ensures name != "" ==> r == name
    ensures name == "" ==> r == BYE
  {
    if name != "" then name else BYE
  }

  /** The second player of the pair starting at position 2k. */
  function Opponent(players: seq<string>, k: nat): string
  {
    if 2 * k + 1 < |players| then OrBye(players[2 * k + 1]) else BYE
  }

  /** The `reduce` that pushes, at every even position i, the match of
      players i and i + 1 (or the filler when i is the last position). */
  function Pairings(players: seq<string>): (ms: seq<Match>)
    ensures |ms| == (|players| + 1) / 2
    ensures forall k :: 0 <= k < |ms| ==>
      2 * k < |players| && ms[k].p1 == players[2 * k] && ms[k].p2 == Opponent(players, k) && ms[k].winner == None
    decreases |players|
  {
    if |players| == 0 then []
    else if |players| == 1 then [Match(players[0], BYE, None)]
    else
      var rest := Pairings(players[2..]);
      var ms := [Match(players[0], OrBye(players[1]), None)] + rest;
      assert |ms| == (|players| + 1) / 2;
      assert forall k :: 0 <= k < |ms| ==>
        2 * k < |players| && ms[k].p1 == players[2 * k] && ms[k].p2 == Opponent(players, k) && ms[k].winner == None
      by {
        forall k | 0 <= k < |ms|
          ensures 2 * k < |players| && ms[k].p1 == players[2 * k] && ms[k].p2 == Opponent(players, k) && ms[k].winner == None
        {
          if k > 0 {
            assert ms[k] == rest[k - 1];
            PairShifted(players, rest[k - 1], k);
          }
        }
      }
      ms
  }

  /** A match of the pairing of `players[2..]`, at position k - 1, is the
      match of `players` at position k. */
  lemma PairShifted(players: seq<string>, m: Match, k: nat)
    requires 2 <= |players| && 1 <= k
    requires 2 * (k - 1) < |players| - 2
    requires m.p1 == players[2..][2 * (k - 1)] && m.p2 == Opponent(players[2..], k - 1)
    ensures 2 * k < |players| && m.p1 == players[2 * k] && m.p2 == Opponent(players, k)
  {
    var j := 2 * (k - 1);
    assert j + 2 == 2 * k;
    if 2 * k + 1 < |players| {
      assert players[2..][j + 1] == players[2 * k + 1];
    }
  }

  /** Names a player can have: non-empty. */
  predicate Named(players: seq<string>)
  {
    forall i :: 0 <= i < |players| ==> players[i] != ""
  }

  /** With non-empty names, every player sits in the match of its pair:
      as first player at an even position, as second at an odd one. */
  lemma {:induction false} PairingsPlaceEveryone(players: seq<string>)
    requires Named(players)
    ensures forall i :: 0 <= i < |players| ==>
      (if i % 2 == 0 then Pairings(players)[i / 2].p1 else Pairings(players)[i / 2].p2) == players[i]
  {
    var ms := Pairings(players);
    forall i | 0 <= i < |players|
      ensures (if i % 2 == 0 then ms[i / 2].p1 else ms[i / 2].p2) == players[i]
    {
      var k := i / 2;
      assert k < |ms|;
      if i % 2 == 1 {
        assert 2 * k + 1 == i;
        assert ms[k].p2 == Opponent(players, k) == OrBye(players[i]);
      } else {
        assert 2 * k == i;
      }
    }
  }

  /** With non-empty names the filler appears only as the opponent in the
      last match, and only when the roster is odd. */
  lemma {:induction false} ByeOnlyLast(players: seq<string>)
    requires Named(players)
    ensures forall k :: 0 <= k < |Pairings(players)| ==>
      (Pairings(players)[k].p2 == BYE <==>
         ((k == |Pairings(players)| - 1 && |players| % 2 == 1) ||
          (2 * k + 1 < |players| && players[2 * k + 1] == BYE)))
  {
    var ms := Pairings(players);
    forall k | 0 <= k < |ms|
      ensures ms[k].p2 == BYE <==>
        ((k == |ms| - 1 && |players| % 2 == 1) || (2 * k + 1 < |players| && players[2 * k + 1] == BYE))
    {
      LastPairOdd(|players|, k);
      if 2 * k + 1 < |players| {
        assert ms[k].p2 == players[2 * k + 1];
      }
    }
  }

  /** Pair k of n players has a second player exactly unless it is the
      last pair of an odd roster. */
  lemma LastPairOdd(n: nat, k: nat)
    requires k < (n + 1) / 2
    ensures 2 * k < n
    ensures 2 * k + 1 < n <==> !(k == (n + 1) / 2 - 1 && n % 2 == 1)
  {
    assert n == 2 * (n / 2) + n % 2;
  }

  /** Every name in the schedule is a player or the filler. */
  lemma {:induction false} PairingsUseOnlyPlayers(players: seq<string>)
    ensures forall k :: 0 <= k < |Pairings(players)| ==>
      Pairings(players)[k].p1 in players &&
      (Pairings(players)[k].p2 in players || Pairings(players)[k].p2 == BYE)
  {
    var ms := Pairings(players);
    forall k | 0 <= k < |ms|
      ensures ms[k].p1 in players && (ms[k].p2 in players || ms[k].p2 == BYE)
    {
      assert ms[k].p1 == players[2 * k];
      if 2 * k + 1 < |players| && players[2 * k + 1] != "" {
        assert ms[k].p2 == players[2 * k + 1];
      }
    }
  }

  /** The `map` that writes the winner into the match at `index` only. */
  function RecordWinner(schedule: seq<Match>, index: int, w: string): (r: seq<Match>)
    ensures |r| == |schedule|
    ensures forall i :: 0 <= i < |r| && i != index ==> r[i] == schedule[i]
    ensures 0 <= index < |r| ==> r[index] == schedule[index].(winner := Some(w))
  {
    seq(|schedule|, i requires 0 <= i < |schedule| =>
      if i == index then schedule[i].(winner := Some(w)) else schedule[i])
  }

  /** A result that counts as a winner of the round: set, and not the filler. */
  predicate Decided(m: Match)
  {
    m.winner.Some? && m.winner.value != BYE
  }

  /** The `map` to winners and the `filter` dropping null and the filler. */
  function RoundWinners(schedule: seq<Match>): (ws: seq<string>)
    ensures |ws| <= |schedule|
    ensures forall x :: x in ws ==> x != BYE
    ensures forall x :: x in ws ==> exists k :: 0 <= k < |schedule| && schedule[k].winner == Some(x)
    ensures forall k :: 0 <= k < |schedule| && Decided(schedule[k]) ==> schedule[k].winner.value in ws
    ensures (forall k :: 0 <= k < |schedule| ==> Decided(schedule[k])) ==> |ws| == |schedule|
    decreases |schedule|
  {
    if |schedule| == 0 then []
    else
      var rest := RoundWinners(schedule[1..]);
      assert forall k :: 1 <= k < |schedule| ==> schedule[k] == schedule[1..][k - 1];
      if Decided(schedule[0]) then [schedule[0].winner.value] + rest else rest
  }

  /** The winners keep the order of their matches. */
  lemma {:induction false} RoundWinnersInOrder(schedule: seq<Match>)
    requires forall k :: 0 <= k < |schedule| ==> Decided(schedule[k])
    ensures forall k :: 0 <= k < |schedule| ==> RoundWinners(schedule)[k] == schedule[k].winner.value
    decreases |schedule|
  {
    if |schedule| > 0 {
      RoundWinnersInOrder(schedule[1..]);
      assert forall k :: 1 <= k < |schedule| ==> schedule[k] == schedule[1..][k - 1];
    }
  }

  /** A round whose every match was won by a player halves the field: the
      next round has ceil(m/2) matches, fewer than m as long as m > 1. */
  lemma {:induction false} NextRoundShrinks(schedule: seq<Match>)
    requires forall k :: 0 <= k < |schedule| ==> Decided(schedule[k])
    ensures |Pairings(RoundWinners(schedule))| == (|schedule| + 1) / 2
    ensures |schedule| > 1 ==> |Pairings(RoundWinners(schedule))| < |schedule|
  {
  }

  /** The characters `String.prototype.trim` removes: white space and line
      terminators. */
  predicate IsSpace(c: char)
  {
    c == ' ' || c == '\t' || c == '\n' || c == '\r' || c == '\U{000B}' || c == '\U{000C}' ||
    c == '\U{00A0}' || c == '\U{1680}' || ('\U{2000}' <= c <= '\U{200A}') ||
    c == '\U{2028}' || c == '\U{2029}' || c == '\U{202F}' || c == '\U{205F}' ||
    c == '\U{3000}' || c == '\U{FEFF}'
  }

  function TrimStart(s: string): (r: string)
    ensures |r| <= |s| && r == s[|s| - |r|..]
    ensures forall i :: 0 <= i < |s| - |r| ==> IsSpace(s[i])
    ensures r == "" || !IsSpace(r[0])
    decreases |s|
  {
    if |s| > 0 && IsSpace(s[0]) then TrimStart(s[1..]) else s
  }

  function TrimEnd(s: string): (r: string)
    ensures |r| <= |s| && r == s[..|r|]
    ensures forall i :: |r| <= i < |s| ==> IsSpace(s[i])
    ensures r == "" || !IsSpace(r[|r| - 1])
    decreases |s|
  {
    if |s| > 0 && IsSpace(s[|s| - 1]) then TrimEnd(s[..|s| - 1]) else s
  }

  /** `trim`: the input without its leading and trailing white space; what
      is removed is white space only, and what is kept has none at either
      end. */
  function Trim(s: string): (r: string)
    ensures |r| <= |s|
    ensures exists i, j :: Flanked(s, r, i, j)
    ensures r == "" || (!IsSpace(r[0]) && !IsSpace(r[|r| - 1]))
  {
    var t := TrimStart(s);
    var r := TrimEnd(t);
    TrimmedSlice(s, t, r);
    r
  }

  /** Trimming the front and then the back leaves a slice of the input
      flanked by white space only. */
  lemma TrimmedSlice(s: string, t: string, r: string)
    requires |t| <= |s| && t == s[|s| - |t|..] && forall k :: 0 <= k < |s| - |t| ==> IsSpace(s[k])
    requires |r| <= |t| && r == t[..|r|] && forall k :: |r| <= k < |t| ==> IsSpace(t[k])
    ensures exists i, j :: Flanked(s, r, i, j)
    ensures r != "" ==> r[0] == t[0]
  {
    var i := |s| - |t|;
    var j := i + |r|;
    assert r == s[i..j];
    assert forall k :: 0 <= k < i ==> IsSpace(s[k]);
    forall k | j <= k < |s|
      ensures IsSpace(s[k])
    {
      assert s[k] == t[k - i];
    }
    assert Flanked(s, r, i, j);
  }

  /** `r` is `s[i..j]` and everything of `s` outside `[i, j)` is white space. */
  ghost predicate Flanked(s: string, r: string, i: int, j: int)
  {
    && 0 <= i <= j <= |s| && r == s[i..j]
    && (forall k :: 0 <= k < i ==> IsSpace(s[k]))
    && (forall k :: j <= k < |s| ==> IsSpace(s[k]))
  }

  /** A roster `handleAddPlayer` can build: at most 16 distinct, trimmed,
      non-empty names. */
  predicate Roster(players: seq<string>)
  {
    |players| <= MAX_PLAYERS &&
    (forall i, j :: 0 <= i < j < |players| ==> players[i] != players[j]) &&
    (forall i :: 0 <= i < |players| ==> players[i] != "" && Trim(players[i]) == players[i])
  }

  /** `handleAddPlayer`'s list update: the trimmed name is appended when it
      is non-empty, new, and the roster has room. */
  function AddPlayer(players: seq<string>, newName: string): (r: seq<string>)
    ensures r != players <==> Trim(newName) != "" && Trim(newName) !in players && |players| < MAX_PLAYERS
    ensures r != players ==> r == players + [Trim(newName)]
  {
    var name := Trim(newName);
    if name != "" && name !in players && |players| < MAX_PLAYERS then players + [name] else players
  }

  /** Adding a player keeps a roster a roster. */
  lemma {:induction false} AddPlayerKeepsRoster(players: seq<string>, newName: string)
    requires Roster(players)
    ensures Roster(AddPlayer(players, newName))
  {
    var r := AddPlayer(players, newName);
    if r != players {
      var name := Trim(newName);
      TrimTrimmed(newName);
      assert r[|players|] == name;
      forall i, j | 0 <= i < j < |r| ensures r[i] != r[j] {
        if j == |players| {
          assert r[i] == players[i];
          assert players[i] in players;
        } else {
          assert r[i] == players[i] && r[j] == players[j];
        }
      }
      forall i | 0 <= i < |r| ensures r[i] != "" && Trim(r[i]) == r[i] {
        if i < |players| {
          assert r[i] == players[i];
        }
      }
    }
  }

  lemma {:induction false} TrimTrimmed(s: string)
    ensures Trim(Trim(s)) == Trim(s)
  {
    var r := Trim(s);
    TrimStartNoop(r);
    TrimEndNoop(r);
  }

  lemma {:induction false} TrimStartNoop(s: string)
    requires s == "" || !IsSpace(s[0])
    ensures TrimStart(s) == s
  {
  }

  lemma {:induction false} TrimEndNoop(s: string)
    requires s == "" || !IsSpace(s[|s| - 1])
    ensures TrimEnd(s) == s
  {
  }
}
