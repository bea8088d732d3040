/** The backend's knockout bracket: a tournament accepts a power-of-two
    field of at least four, and its bracket is written into the match table
    from the final (round 1) back to the first round played (round
    log2(n)), each round's matches then pointing at the match of the next
    round they feed. The match table is a sequence of records whose ids
    are their positions plus one, as an auto-increment key gives. */
module Bracket {
  import opened Optional

  /** 2 to the power k. */
  function Pow2(k: nat): (r: nat)
    ensures r >= 1
  {
    if k == 0 then 1 else 2 * Pow2(k - 1)
  }

  lemma {:induction false} Pow2Monotone(a: nat, b: nat)
    requires a <= b
    ensures Pow2(a) <= Pow2(b)
    decreases b
  {
    if a < b {
      Pow2Monotone(a, b - 1);
    }
  }

  /** `(n & (n - 1)) === 0` for a positive count: a single bit is set. */
  predicate IsPowerOfTwo(n: nat)
    decreases n
  {
    n == 1 || (n >= 2 && n % 2 == 0 && IsPowerOfTwo(n / 2))
  }

  /** `Math.log2` of a power of two. */
  function Log2(n: nat): (k: nat)
    requires IsPowerOfTwo(n)
    ensures Pow2(k) == n
    decreases n
  {
    if n == 1 then 0 else 1 + Log2(n / 2)
  }

  /** The single-bit test accepts exactly the values of `Pow2`. */
  lemma PowerOfTwoExactly(n: nat)
    ensures IsPowerOfTwo(n) <==> exists k :: Pow2(k) == n
  {
    if IsPowerOfTwo(n) {
      assert Pow2(Log2(n)) == n;
    } else if k :| Pow2(k) == n {
      PowersOfTwo(k);
    }
  }

  /** Every value of `Pow2` passes the single-bit test, with logarithm k. */
  lemma {:induction false} PowersOfTwo(k: nat)
    ensures IsPowerOfTwo(Pow2(k)) && Log2(Pow2(k)) == k
  {
    if k > 0 {
      PowersOfTwo(k - 1);
      assert Pow2(k) / 2 == Pow2(k - 1);
    }
  }

  /** The participant check of `createTournament`: a list must be given,
      hold at least four entries, and their number must be a power of two. */
  function Accepts(participants: Option<seq<int>>): (ok: bool)
    ensures ok ==>
              participants.Some? && |participants.value| >= 4 && IsPowerOfTwo(|participants.value|) &&
              Pow2(Log2(|participants.value|)) == |participants.value| && Log2(|participants.value|) >= 2
  {
    participants.Some? && |participants.value| >= 4 && IsPowerOfTwo(|participants.value|)
  }

  /** Every field of 2^k players with k >= 2 is accepted. */
  lemma {:induction false} AcceptsPowers(participants: seq<int>, k: nat)
    requires k >= 2 && |participants| == Pow2(k)
    ensures Accepts(Some(participants))
  {
    PowersOfTwo(k);
    Pow2Monotone(2, k);
  }

  datatype MatchRecord = MatchRecord(id: int, tournamentId: int, round: nat, game: string, matchStatus: string,
                                     playerOne: Option<int>, playerTwo: Option<int>, nextMatchId: Option<int>)

  const PENDING: string := "pending"

  /** What a bracket is built from: the table size before it, the
      tournament, the shuffled participants, the round that receives the
      players, and the number of rounds. */
  datatype Plan = Plan(base: nat, tournamentId: int, game: string, participants: seq<int>,
                       placeRound: nat, totalRounds: nat)

  /** The id of match `i` of round `r`: the rounds above r (from the first
      round played down to r + 1) were created before it, the 2^(r-1)
      matches of round r follow. */
  function Id(p: Plan, r: nat, i: nat): (id: int)
    requires 1 <= r <= p.totalRounds && i < Pow2(r - 1)
    ensures p.base < id && p.base + Pow2(p.totalRounds) - Pow2(r) < id <= p.base + Pow2(p.totalRounds) - Pow2(r - 1)
  {
    Pow2Monotone(r, p.totalRounds);
    p.base + Pow2(p.totalRounds) - Pow2(r) + i + 1
  }

  /** A player seat: the participant when the round receives players. */
  function Seat(p: Plan, r: nat, k: nat): Option<int>
  {
    if r == p.placeRound && k < |p.participants| then Some(p.participants[k]) else None
  }

  /** The record of match `i` of round `r` once the bracket is complete. */
  function Expected(p: Plan, r: nat, i: nat): MatchRecord
    requires 1 <= r <= p.totalRounds && i < Pow2(r - 1)
  {
    MatchRecord(Id(p, r, i), p.tournamentId, r, p.game, PENDING, Seat(p, r, 2 * i), Seat(p, r, 2 * i + 1),
                if r > 1 then Some(Id(p, r - 1, i / 2)) else None)
  }

  /** The match table. */
  class MatchTable {
    var records: seq<MatchRecord>

    predicate Keyed()
      reads this
    {
      forall k :: 0 <= k < |records| ==> records[k].id == k + 1
    }

    constructor ()
      ensures records == [] && Keyed()
    {
      records := [];
    }

    /** `MatchModel.create`: a new record under the next id. */
    method Create(tournamentId: int, round: nat, game: string, matchStatus: string,
                  playerOne: Option<int>, playerTwo: Option<int>) returns (id: int)
      modifies this
      ensures id == |old(records)| + 1
      ensures records == old(records) + [MatchRecord(id, tournamentId, round, game, matchStatus, playerOne, playerTwo, None)]
      ensures old(Keyed()) ==> Keyed()
    {
      id := |records| + 1;
      records := records + [MatchRecord(id, tournamentId, round, game, matchStatus, playerOne, playerTwo, None)];
    }

    /** `match.update({ next_match_id })` on a created match. */
    method SetNext(id: int, next: int)
      requires 1 <= id <= |records|
      modifies this
      ensures records == old(records)[id - 1 := old(records)[id - 1].(nextMatchId := Some(next))]
      ensures old(Keyed()) ==> Keyed()
    {
      records := records[id - 1 := records[id - 1].(nextMatchId := Some(next))];
    }
  }

  /** The inner loop of `createBracket`: the 2^(r-1) matches of round r,
      pending, seated when r is the placing round, not linked yet. */
  method CreateRound(table: MatchTable, p: Plan, round: nat) returns (ids: seq<int>)
    requires 1 <= round <= p.totalRounds && table.Keyed()
    requires |table.records| == p.base + Pow2(p.totalRounds) - Pow2(round)
    modifies table
    ensures table.Keyed() && |table.records| == p.base + Pow2(p.totalRounds) - Pow2(round - 1)
    ensures table.records[..|old(table.records)|] == old(table.records)
    ensures PendingLinks(p, round, ids, table.records)
  {
    var numMatchesInRound := Pow2(round - 1);
    ids := [];
    var i := 0;
    while i < numMatchesInRound
      invariant 0 <= i <= numMatchesInRound && table.Keyed()
      invariant |table.records| == p.base + Pow2(p.totalRounds) - Pow2(round) + i
      invariant table.records[..|old(table.records)|] == old(table.records)
      invariant |ids| == i && forall k :: 0 <= k < i ==> ids[k] == Id(p, round, k)
      invariant forall k :: 0 <= k < i ==>
        table.records[Id(p, round, k) - 1] == Expected(p, round, k).(nextMatchId := None)
    {
      var playerOne := if round == p.placeRound && i * 2 < |p.participants| then Some(p.participants[i * 2]) else None;
      var playerTwo := if round == p.placeRound && i * 2 + 1 < |p.participants| then Some(p.participants[i * 2 + 1]) else None;
      var id := table.Create(p.tournamentId, round, p.game, PENDING, playerOne, playerTwo);
      ids := ids + [id];
      i := i + 1;
    }
  }

  /** The linking loop: match k of the round created before points at
      match k / 2 of the round just created. */
  method LinkRound(table: MatchTable, p: Plan, round: nat, last: seq<int>, current: seq<int>)
    requires 1 <= round < p.totalRounds && table.Keyed()
    requires |table.records| == p.base + Pow2(p.totalRounds) - Pow2(round - 1)
    requires PendingLinks(p, round + 1, last, table.records)
    requires |current| == Pow2(round - 1) && forall k :: 0 <= k < |current| ==> current[k] == Id(p, round, k)
    modifies table
    ensures table.Keyed() && LinkedFrom(p, round, last, old(table.records), table.records)
  {
    ghost var first := Id(p, round + 1, 0);
    assert forall q :: 0 <= q < |last| ==> last[q] == first + q;
    var k := 0;
    while k < |last|
      invariant 0 <= k <= |last| && table.Keyed() && |table.records| == |old(table.records)|
      invariant forall q :: 0 <= q < |last| ==> last[q] == first + q && first + q <= |table.records|
      invariant forall q :: 0 <= q < k ==>
        table.records[last[q] - 1] == old(table.records)[last[q] - 1].(nextMatchId := Some(Id(p, round, q / 2)))
      invariant forall j :: 0 <= j < |table.records| && !(first - 1 <= j < first - 1 + k) ==>
        table.records[j] == old(table.records)[j]
    {
      ghost var before := table.records;
      table.SetNext(last[k], current[k / 2]);
      LinkStep(p, round, last, first, old(table.records), before, table.records, k);
      k := k + 1;
    }
  }

  /** One step of the linking loop keeps its invariants. */
  lemma {:induction false} LinkStep(p: Plan, round: nat, last: seq<int>, first: int,
                                    created: seq<MatchRecord>, before: seq<MatchRecord>, after: seq<MatchRecord>, k: nat)
    requires 1 <= round < p.totalRounds && k < |last| == 2 * Pow2(round - 1) && |before| == |created| && 1 <= first
    requires forall q :: 0 <= q < |last| ==> last[q] == first + q && first + q <= |before|
    requires forall q :: 0 <= q < k ==>
      before[last[q] - 1] == created[last[q] - 1].(nextMatchId := Some(Id(p, round, q / 2)))
    requires forall j :: 0 <= j < |before| && !(first - 1 <= j < first - 1 + k) ==> before[j] == created[j]
    requires after == before[last[k] - 1 := before[last[k] - 1].(nextMatchId := Some(Id(p, round, k / 2)))]
    ensures forall q :: 0 <= q < k + 1 ==>
      after[last[q] - 1] == created[last[q] - 1].(nextMatchId := Some(Id(p, round, q / 2)))
    ensures forall j :: 0 <= j < |after| && !(first - 1 <= j < first - 1 + (k + 1)) ==> after[j] == created[j]
  {
    assert before[last[k] - 1] == created[last[k] - 1];
  }

  /** One pass of the outer loop of `createBracket`: create round `round`,
      then link the round created before to it. */
  method BuildRound(table: MatchTable, p: Plan, round: nat, last: seq<int>) returns (current: seq<int>)
    requires 1 <= round <= p.totalRounds && table.Keyed()
    requires Pow2(round) <= Pow2(p.totalRounds)
    requires |table.records| == p.base + Pow2(p.totalRounds) - Pow2(round)
    requires round == p.totalRounds ==> last == []
    requires round < p.totalRounds ==> PendingLinks(p, round + 1, last, table.records)
    requires Completed(p, round + 1, table.records)
    modifies table
    ensures table.Keyed() && |table.records| == p.base + Pow2(p.totalRounds) - Pow2(round - 1)
    ensures table.records[..p.base] == old(table.records)[..p.base]
    ensures PendingLinks(p, round, current, table.records)
    ensures Completed(p, round, table.records)
  {
    ghost var before := table.records;
    current := CreateRound(table, p, round);
    CreateKeeps(p, round, last, before, table.records);
    if |last| > 0 {
      ghost var created := table.records;
      LinkRound(table, p, round, last, current);
      LinkKeepsBelow(p, round, last, created, table.records);
      LinkCompletes(p, round, last, created, table.records);
      LinkKeepsPending(p, round, last, current, created, table.records);
    }
  }

  /** The bracket as `createBracket` builds it with players given to
      `placeRound`: n - 1 new records, every match of every round in its
      place as `Expected` says, and the table before it untouched. */
  method BuildBracket(table: MatchTable, tournamentId: int, game: string, participants: seq<int>, placeRound: nat)
    returns (p: Plan)
    requires IsPowerOfTwo(|participants|) && table.Keyed()
    modifies table
    ensures p == Plan(|old(table.records)|, tournamentId, game, participants, placeRound, Log2(|participants|))
    ensures table.Keyed() && |table.records| == |old(table.records)| + |participants| - 1
    ensures table.records[..|old(table.records)|] == old(table.records)
    ensures Completed(p, 0, table.records)
  {
    var numPlayers := |participants|;
    var totalRounds := Log2(numPlayers);
    p := Plan(|table.records|, tournamentId, game, participants, placeRound, totalRounds);
    var lastRoundMatches: seq<int> := [];
    var round := totalRounds;
    while round >= 1
      invariant 0 <= round <= totalRounds && table.Keyed()
      invariant Pow2(round) <= Pow2(totalRounds)
      invariant |table.records| == p.base + Pow2(totalRounds) - Pow2(round)
      invariant table.records[..p.base] == old(table.records)
      invariant round == totalRounds ==> lastRoundMatches == []
      invariant round < totalRounds ==> PendingLinks(p, round + 1, lastRoundMatches, table.records)
      invariant Completed(p, round + 1, table.records)
    {
      lastRoundMatches := BuildRound(table, p, round, lastRoundMatches);
      round := round - 1;
    }
    if totalRounds >= 1 {
      FinalCompletes(p, lastRoundMatches, table.records);
    }
  }

  /** The final, created last, needs no link: the bracket is complete. */
  lemma {:induction false} FinalCompletes(p: Plan, last: seq<int>, records: seq<MatchRecord>)
    requires 1 <= p.totalRounds
    requires Completed(p, 1, records) && PendingLinks(p, 1, last, records)
    ensures Completed(p, 0, records)
  {
    forall i | 0 <= i < Pow2(0)
      ensures records[Id(p, 1, i) - 1] == Expected(p, 1, i)
    {
      assert last[i] == Id(p, 1, i);
    }
  }

  /** Every round above `round` is in the table as `Expected` says. */
  predicate Completed(p: Plan, round: nat, records: seq<MatchRecord>)
  {
    forall r, i {:trigger Expected(p, r, i)} :: round < r <= p.totalRounds && 0 <= i < Pow2(r - 1) ==>
      Id(p, r, i) <= |records| && records[Id(p, r, i) - 1] == Expected(p, r, i)
  }

  /** Round `round` is in the table, not linked yet, under the ids `ids`. */
  predicate PendingLinks(p: Plan, round: nat, ids: seq<int>, records: seq<MatchRecord>)
    requires 1 <= round <= p.totalRounds
  {
    |ids| == Pow2(round - 1) &&
    (forall k :: 0 <= k < |ids| ==> ids[k] == Id(p, round, k)) &&
    (forall k :: 0 <= k < |ids| ==> 0 < ids[k] <= |records| && records[ids[k] - 1] == Expected(p, round, k).(nextMatchId := None))
  }

  /** Appending a round keeps every record of the earlier rounds. */
  lemma {:induction false} CreateKeeps(p: Plan, round: nat, last: seq<int>, before: seq<MatchRecord>, after: seq<MatchRecord>)
    requires 1 <= round <= p.totalRounds && Pow2(round) <= Pow2(p.totalRounds)
    requires |before| == p.base + Pow2(p.totalRounds) - Pow2(round) <= |after|
    requires after[..|before|] == before
    ensures after[..p.base] == before[..p.base]
    ensures Completed(p, round + 1, before) ==> Completed(p, round + 1, after)
    ensures round < p.totalRounds && PendingLinks(p, round + 1, last, before) ==> PendingLinks(p, round + 1, last, after)
  {
    assert after[..p.base] == after[..|before|][..p.base];
    forall r, i | round < r <= p.totalRounds && 0 <= i < Pow2(r - 1)
      ensures Id(p, r, i) <= |before| && after[Id(p, r, i) - 1] == before[Id(p, r, i) - 1]
    {
      Pow2Monotone(round, r - 1);
      assert after[Id(p, r, i) - 1] == after[..|before|][Id(p, r, i) - 1];
    }
  }

  /** The facts `LinkRound` leaves behind, the table before it being `created`. */
  predicate LinkedFrom(p: Plan, round: nat, last: seq<int>, created: seq<MatchRecord>, linked: seq<MatchRecord>)
    requires 1 <= round < p.totalRounds
  {
    |created| == |linked| == p.base + Pow2(p.totalRounds) - Pow2(round - 1) &&
    PendingLinks(p, round + 1, last, created) &&
    (forall k :: 0 <= k < |last| ==>
      linked[last[k] - 1] == created[last[k] - 1].(nextMatchId := Some(Id(p, round, k / 2)))) &&
    (forall j :: 0 <= j < |linked| && !(Id(p, round + 1, 0) - 1 <= j < Id(p, round + 1, 0) - 1 + |last|) ==>
      linked[j] == created[j])
  }

  /** Linking touches nothing below the first linked id: not the table
      before the bracket, not the rounds above the linked one. */
  lemma {:induction false} LinkKeepsBelow(p: Plan, round: nat, last: seq<int>, created: seq<MatchRecord>, linked: seq<MatchRecord>)
    requires 1 <= round < p.totalRounds && Pow2(round) <= Pow2(p.totalRounds)
    requires LinkedFrom(p, round, last, created, linked)
    ensures linked[..p.base] == created[..p.base]
    ensures Completed(p, round + 1, created) ==> Completed(p, round + 1, linked)
  {
    var first := Id(p, round + 1, 0) - 1;
    forall j | 0 <= j < p.base
      ensures linked[j] == created[j]
    {
      assert j < first;
    }
    if Completed(p, round + 1, created) {
      forall r, i | round + 1 < r <= p.totalRounds && 0 <= i < Pow2(r - 1)
        ensures Id(p, r, i) <= |linked| && linked[Id(p, r, i) - 1] == Expected(p, r, i)
      {
        Pow2Monotone(round + 1, r - 1);
        UnlinkedKept(p, round, last, created, linked, Id(p, r, i) - 1);
      }
    }
  }

  /** A record below the first linked id is the same after linking. */
  lemma {:induction false} UnlinkedKept(p: Plan, round: nat, last: seq<int>, created: seq<MatchRecord>, linked: seq<MatchRecord>, j: int)
    requires 1 <= round < p.totalRounds
    requires LinkedFrom(p, round, last, created, linked)
    requires 0 <= j < Id(p, round + 1, 0) - 1
    ensures j < |linked| && linked[j] == created[j]
  {
  }

  /** Linking completes the round created before. */
  lemma {:induction false} LinkCompletes(p: Plan, round: nat, last: seq<int>, created: seq<MatchRecord>, linked: seq<MatchRecord>)
    requires 1 <= round < p.totalRounds
    requires LinkedFrom(p, round, last, created, linked)
    requires Completed(p, round + 1, linked)
    ensures Completed(p, round, linked)
  {
    forall r, i | round < r <= p.totalRounds && 0 <= i < Pow2(r - 1)
      ensures Id(p, r, i) <= |linked| && linked[Id(p, r, i) - 1] == Expected(p, r, i)
    {
      if r == round + 1 {
        assert last[i] == Id(p, r, i);
      } else {
        assert linked[Id(p, r, i) - 1] == Expected(p, r, i);
      }
    }
  }

  /** Linking leaves the round just created as it was. */
  lemma {:induction false} LinkKeepsPending(p: Plan, round: nat, last: seq<int>, ids: seq<int>,
                                            created: seq<MatchRecord>, linked: seq<MatchRecord>)
    requires 1 <= round < p.totalRounds
    requires LinkedFrom(p, round, last, created, linked)
    requires PendingLinks(p, round, ids, created)
    ensures PendingLinks(p, round, ids, linked)
  {
    forall k | 0 <= k < |ids|
      ensures linked[ids[k] - 1] == created[ids[k] - 1]
    {
      assert ids[k] == Id(p, round, k);
    }
  }

  /** `createBracket` as written: the players go to round 1, the final. */
  method CreateBracket(table: MatchTable, tournamentId: int, game: string, participants: seq<int>) returns (p: Plan)
    requires IsPowerOfTwo(|participants|) && table.Keyed()
    modifies table
    ensures p == Plan(|old(table.records)|, tournamentId, game, participants, 1, Log2(|participants|))
    ensures table.Keyed() && |table.records| == |old(table.records)| + |participants| - 1
    ensures table.records[..|old(table.records)|] == old(table.records)
    ensures Completed(p, 0, table.records)
  {
    p := BuildBracket(table, tournamentId, game, participants, 1);
  }

  /** `createBracket` with the players given to the first round played,
      round log2(n). */
  method CreateBracketIntended(table: MatchTable, tournamentId: int, game: string, participants: seq<int>) returns (p: Plan)
    requires IsPowerOfTwo(|participants|) && table.Keyed()
    modifies table
    ensures p == Plan(|old(table.records)|, tournamentId, game, participants, Log2(|participants|), Log2(|participants|))
    ensures table.Keyed() && |table.records| == |old(table.records)| + |participants| - 1
    ensures table.records[..|old(table.records)|] == old(table.records)
    ensures Completed(p, 0, table.records)
  {
    p := BuildBracket(table, tournamentId, game, participants, Log2(|participants|));
  }

  /** `createTournament` as written: a rejected list answers 400 and writes
      nothing; an accepted one is shuffled (`shuffled` is the order the
      random sort left) and its bracket written by `createBracket`, which
      seats the players in round 1, answering 201. `tournamentId` is the id
      the new tournament record receives. */
  method CreateTournament(table: MatchTable, tournamentId: int, game: string, participants: Option<seq<int>>,
                          shuffled: seq<int>) returns (status: int)
    requires table.Keyed()
    requires participants.Some? ==> multiset(shuffled) == multiset(participants.value)
    modifies table
    ensures !Accepts(participants) ==> status == 400 && table.records == old(table.records)
    ensures Accepts(participants) ==>
              |shuffled| == |participants.value| &&
              status == 201 && table.Keyed() && |table.records| == |old(table.records)| + |shuffled| - 1 &&
              table.records[..|old(table.records)|] == old(table.records) &&
              Completed(Plan(|old(table.records)|, tournamentId, game, shuffled, 1, Log2(|shuffled|)),
                        0, table.records)
  {
    if participants.None? || |participants.value| < 4 || !IsPowerOfTwo(|participants.value|) {
      return 400;
    }
    assert |shuffled| == |participants.value| by {
      assert |multiset(shuffled)| == |multiset(participants.value)|;
    }
    var _ := CreateBracket(table, tournamentId, game, shuffled);
    status := 201;
  }

  /** `createTournament` as evidently intended: the same, with the bracket
      seating the players in the first round played. */
  method CreateTournamentIntended(table: MatchTable, tournamentId: int, game: string, participants: Option<seq<int>>,
                                  shuffled: seq<int>) returns (status: int)
    requires table.Keyed()
    requires participants.Some? ==> multiset(shuffled) == multiset(participants.value)
    modifies table
    ensures !Accepts(participants) ==> status == 400 && table.records == old(table.records)
    ensures Accepts(participants) ==>
              |shuffled| == |participants.value| &&
              status == 201 && table.Keyed() && |table.records| == |old(table.records)| + |shuffled| - 1 &&
              table.records[..|old(table.records)|] == old(table.records) &&
              Completed(Plan(|old(table.records)|, tournamentId, game, shuffled, Log2(|shuffled|), Log2(|shuffled|)),
                        0, table.records)
  {
    if participants.None? || |participants.value| < 4 || !IsPowerOfTwo(|participants.value|) {
      return 400;
    }
    assert |shuffled| == |participants.value| by {
      assert |multiset(shuffled)| == |multiset(participants.value)|;
    }
    var _ := CreateBracketIntended(table, tournamentId, game, shuffled);
    status := 201;
  }

  /** Finds the round and index of a position of the bracket, searching
      from round `r` down. */
  lemma {:induction false} Locate(p: Plan, j: int, r: nat) returns (q: nat, i: nat)
    requires 1 <= r <= p.totalRounds
    requires p.base + Pow2(p.totalRounds) - Pow2(r) <= j < p.base + Pow2(p.totalRounds) - 1
    ensures 1 <= q <= r && i < Pow2(q - 1) && Id(p, q, i) - 1 == j
    decreases r
  {
    if j < p.base + Pow2(p.totalRounds) - Pow2(r - 1) {
      q, i := r, j - p.base - Pow2(p.totalRounds) + Pow2(r);
    } else {
      q, i := Locate(p, j, r - 1);
    }
  }

  /** Position j lies in the block of round r: after the rounds above it,
      before the rounds below it. */
  predicate InRound(p: Plan, r: nat, j: int)
    requires 1 <= r
  {
    p.base + Pow2(p.totalRounds) - Pow2(r) <= j < p.base + Pow2(p.totalRounds) - Pow2(r - 1)
  }

  /** The record at one position of a complete bracket. */
  lemma {:induction false} RecordAt(p: Plan, records: seq<MatchRecord>, j: int)
    requires |records| == p.base + Pow2(p.totalRounds) - 1
    requires Completed(p, 0, records)
    requires p.base <= j < |records|
    ensures records[j].matchStatus == PENDING && records[j].tournamentId == p.tournamentId && records[j].game == p.game
    ensures 1 <= records[j].round <= p.totalRounds
    ensures forall r :: 1 <= r <= p.totalRounds ==> (records[j].round == r <==> InRound(p, r, j))
  {
    var q, i := Locate(p, j, p.totalRounds);
    assert records[j] == Expected(p, q, i);
    ExpectedInRound(p, q, i, j);
  }

  /** Match i of round q sits in the block of round q and of no other. */
  lemma {:induction false} ExpectedInRound(p: Plan, q: nat, i: nat, j: int)
    requires 1 <= q <= p.totalRounds && i < Pow2(q - 1)
    requires j == Id(p, q, i) - 1
    ensures forall r :: 1 <= r <= p.totalRounds ==> (Expected(p, q, i).round == r <==> InRound(p, r, j))
  {
    forall r | 1 <= r <= p.totalRounds
      ensures r == q <==> InRound(p, r, j)
    {
      RoundsDisjoint(p, q, r, j);
    }
  }

  /** A position lies in the block of one round only. */
  lemma {:induction false} RoundsDisjoint(p: Plan, q: nat, r: nat, j: int)
    requires 1 <= q && 1 <= r && InRound(p, q, j)
    ensures InRound(p, r, j) <==> r == q
  {
    if r < q {
      Pow2Monotone(r, q - 1);
    } else if r > q {
      Pow2Monotone(q, r - 1);
    }
  }

  /** A complete bracket fills the n - 1 new records with pending matches
      of the tournament and its game, round r taking a block of 2^(r-1)
      consecutive records, the first round played first and the final
      last. */
  lemma {:induction false} BracketLayout(p: Plan, records: seq<MatchRecord>)
    requires |records| == p.base + Pow2(p.totalRounds) - 1
    requires Completed(p, 0, records)
    ensures forall j :: p.base <= j < |records| ==>
      records[j].matchStatus == PENDING && records[j].tournamentId == p.tournamentId && records[j].game == p.game &&
      1 <= records[j].round <= p.totalRounds
    ensures forall j, r :: p.base <= j < |records| && 1 <= r <= p.totalRounds ==>
      (records[j].round == r <==> InRound(p, r, j))
  {
    forall j | p.base <= j < |records|
      ensures records[j].matchStatus == PENDING && records[j].tournamentId == p.tournamentId && records[j].game == p.game
      ensures 1 <= records[j].round <= p.totalRounds
      ensures forall r :: 1 <= r <= p.totalRounds ==> (records[j].round == r <==> InRound(p, r, j))
    {
      RecordAt(p, records, j);
    }
  }

  /** Match i of round r >= 2 feeds match j of round r - 1 exactly when i
      is 2j or 2j + 1: every match after the first round played is fed by
      two, and both exist. */
  lemma {:induction false} FedByTwo(p: Plan, r: nat, j: nat)
    requires 2 <= r <= p.totalRounds && j < Pow2(r - 2)
    ensures 2 * j + 1 < Pow2(r - 1)
    ensures forall i :: 0 <= i < Pow2(r - 1) ==>
      (Expected(p, r, i).nextMatchId == Some(Id(p, r - 1, j)) <==> i == 2 * j || i == 2 * j + 1)
  {
  }

  /** No match feeds a match of the first round played, and the final
      feeds none. */
  lemma {:induction false} BracketEnds(p: Plan, r: nat, i: nat, j: nat)
    requires 1 <= r <= p.totalRounds && i < Pow2(r - 1) && j < Pow2(p.totalRounds - 1)
    ensures Expected(p, r, i).nextMatchId != Some(Id(p, p.totalRounds, j))
    ensures r == 1 ==> Expected(p, r, i).nextMatchId == None
  {
    if r > 1 {
      Pow2Monotone(r - 1, p.totalRounds - 1);
    }
  }

  /** As written, only the final is seated, with the first two participants;
      every other match, the whole first round played included, has no
      players. */
  lemma {:induction false} AsWrittenSeatsTwo(p: Plan)
    requires p.placeRound == 1 && 2 <= p.totalRounds && |p.participants| == Pow2(p.totalRounds)
    ensures Expected(p, 1, 0).playerOne == Some(p.participants[0])
    ensures Expected(p, 1, 0).playerTwo == Some(p.participants[1])
    ensures forall r, i :: 1 < r <= p.totalRounds && 0 <= i < Pow2(r - 1) ==>
      Expected(p, r, i).playerOne == None && Expected(p, r, i).playerTwo == None
  {
    Pow2Monotone(1, p.totalRounds);
  }

  /** With the players given to the first round played, that round has
      exactly the seats for the n participants, match i seating participants
      2i and 2i + 1, so each participant sits once; no later round is
      seated. */
  lemma {:induction false} IntendedSeatsEveryone(p: Plan)
    requires 1 <= p.totalRounds && p.placeRound == p.totalRounds && |p.participants| == Pow2(p.totalRounds)
    ensures 2 * Pow2(p.totalRounds - 1) == |p.participants|
    ensures forall i :: 0 <= i < Pow2(p.totalRounds - 1) ==>
      Expected(p, p.totalRounds, i).playerOne == Some(p.participants[2 * i]) &&
      Expected(p, p.totalRounds, i).playerTwo == Some(p.participants[2 * i + 1])
    ensures forall r, i :: 1 <= r < p.totalRounds && 0 <= i < Pow2(r - 1) ==>
      Expected(p, r, i).playerOne == None && Expected(p, r, i).playerTwo == None
  {
    assert Pow2(p.totalRounds) == 2 * Pow2(p.totalRounds - 1);
  }
}
