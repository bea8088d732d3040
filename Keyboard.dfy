/** The keyboard hook of the React Pong component: two cells, one per
    player, holding the direction that player's keys ask for, driven by
    key-down and key-up events. Keys are compared after lower-casing. */
module Keyboard {

  /** `MovementDirection`: 'up', 'down' or null (here `Idle`). */
  datatype Direction = Up | Down | Idle

  /** The pair (movementP1, movementP2). */
  datatype Movements = Movements(p1: Direction, p2: Direction)

  /** Lower-casing of one character; only ASCII letters are mapped. The
      Unicode-aware `toLowerCase` maps more characters, but none of them
      lowers to one of the key names the handlers compare with, so the two
      agree on which keys act. */
  function LowerChar(c: char): (r: char)
    ensures 'A' <= c <= 'Z' ==> 'a' <= r <= 'z'
    ensures !('A' <= c <= 'Z') ==> r == c
  {
    if 'A' <= c <= 'Z' then (c as int - 'A' as int + 'a' as int) as char else c
  }

  /** `toLowerCase` on a key name. */
  function ToLower(s: string): (r: string)
    ensures |r| == |s|
    ensures forall i :: 0 <= i < |s| ==> r[i] == LowerChar(s[i])
  {
    if s == [] then [] else [LowerChar(s[0])] + ToLower(s[1..])
  }

  lemma {:induction false} ToLowerIdempotent(s: string)
    ensures ToLower(ToLower(s)) == ToLower(s)
  {
    if s != [] {
      ToLowerIdempotent(s[1..]);
      assert ToLower(s)[1..] == ToLower(s[1..]);
    }
  }

  predicate IsP1UpKey(k: string) { k == "w" || k == "arrowup" }
  predicate IsP1DownKey(k: string) { k == "s" || k == "arrowdown" }
  predicate IsP2UpKey(k: string) { k == "o" }
  predicate IsP2DownKey(k: string) { k == "l" }

  /** A key name (already lower-cased) that some handler reacts to. */
  predicate IsListedKey(k: string)
  {
    IsP1UpKey(k) || IsP1DownKey(k) || IsP2UpKey(k) || IsP2DownKey(k)
  }

  /** `handleKeyDown`: the new pair of directions. */
  function KeyDown(m: Movements, key: string, isOnePlayerMode: bool): (r: Movements)
    ensures r.p1 != m.p1 ==> IsP1UpKey(ToLower(key)) || IsP1DownKey(ToLower(key))
    ensures r.p2 != m.p2 ==> !isOnePlayerMode && (IsP2UpKey(ToLower(key)) || IsP2DownKey(ToLower(key)))
    ensures IsP1UpKey(ToLower(key)) ==> r == m.(p1 := Up)
    ensures IsP1DownKey(ToLower(key)) ==> r == m.(p1 := Down)
    ensures !isOnePlayerMode && IsP2UpKey(ToLower(key)) ==> r == m.(p2 := Up)
    ensures !isOnePlayerMode && IsP2DownKey(ToLower(key)) ==> r == m.(p2 := Down)
  {
    var k := ToLower(key);
    if IsP1UpKey(k) then m.(p1 := Up)
    else if IsP1DownKey(k) then m.(p1 := Down)
    else if IsP2UpKey(k) then (if !isOnePlayerMode then m.(p2 := Up) else m)
    else if IsP2DownKey(k) then (if !isOnePlayerMode then m.(p2 := Down) else m)
    else m
  }

  /** `handleKeyUp`: a released key clears its player's direction only when
      that direction is the one the key stands for. */
  function KeyUp(m: Movements, key: string): (r: Movements)
    ensures r.p1 != m.p1 ==>
      r.p1 == Idle &&
      ((IsP1UpKey(ToLower(key)) && m.p1 == Up) || (IsP1DownKey(ToLower(key)) && m.p1 == Down))
    ensures r.p2 != m.p2 ==>
      r.p2 == Idle &&
      ((IsP2UpKey(ToLower(key)) && m.p2 == Up) || (IsP2DownKey(ToLower(key)) && m.p2 == Down))
    ensures IsP1UpKey(ToLower(key)) && m.p1 == Up ==> r == m.(p1 := Idle)
    ensures IsP1DownKey(ToLower(key)) && m.p1 == Down ==> r == m.(p1 := Idle)
    ensures IsP2UpKey(ToLower(key)) && m.p2 == Up ==> r == m.(p2 := Idle)
    ensures IsP2DownKey(ToLower(key)) && m.p2 == Down ==> r == m.(p2 := Idle)
  {
    var k := ToLower(key);
    if IsP1UpKey(k) then (if m.p1 == Up then m.(p1 := Idle) else m)
    else if IsP1DownKey(k) then (if m.p1 == Down then m.(p1 := Idle) else m)
    else if IsP2UpKey(k) then (if m.p2 == Up then m.(p2 := Idle) else m)
    else if IsP2DownKey(k) then (if m.p2 == Down then m.(p2 := Idle) else m)
    else m
  }

  /** Matching ignores case: a key and its lower-cased name act alike. */
  lemma CaseInsensitive(m: Movements, key: string, isOnePlayerMode: bool)
    ensures KeyDown(m, key, isOnePlayerMode) == KeyDown(m, ToLower(key), isOnePlayerMode)
    ensures KeyUp(m, key) == KeyUp(m, ToLower(key))
  {
    ToLowerIdempotent(key);
  }

  /** Keys outside the listed cases change neither direction. */
  lemma UnlistedKeysIgnored(m: Movements, key: string, isOnePlayerMode: bool)
    requires !IsListedKey(ToLower(key))
    ensures KeyDown(m, key, isOnePlayerMode) == m
    ensures KeyUp(m, key) == m
  {
  }

  /** In one-player mode the second cell never changes on a key press. */
  lemma OnePlayerIgnoresSecondPlayer(m: Movements, key: string)
    ensures KeyDown(m, key, true).p2 == m.p2
  {
  }

  /** Pressing and releasing the same key leaves its player idle. */
  lemma PressThenReleaseIsIdle(m: Movements, key: string, isOnePlayerMode: bool)
    ensures var k := ToLower(key);
      (IsP1UpKey(k) || IsP1DownKey(k)) ==> KeyUp(KeyDown(m, key, isOnePlayerMode), key).p1 == Idle
    ensures var k := ToLower(key);
      (IsP2UpKey(k) || IsP2DownKey(k)) && !isOnePlayerMode ==>
        KeyUp(KeyDown(m, key, isOnePlayerMode), key).p2 == Idle
  {
  }

  /** Holding 'w', then pressing 's', then releasing 'w' keeps the player
      moving down: the release of a key whose direction was overridden
      is ignored. */
  lemma OverriddenReleaseIgnored(m: Movements, isOnePlayerMode: bool)
    ensures KeyUp(KeyDown(KeyDown(m, "w", isOnePlayerMode), "s", isOnePlayerMode), "w").p1 == Down
  {
    assert ToLower("w") == "w";
    assert ToLower("s") == "s";
  }

  /** The hook's state: the two cells and the setters it exposes. */
  class Controls {
    var movementP1: Direction
    var movementP2: Direction

    function State(): Movements
      reads this
    {
      Movements(movementP1, movementP2)
    }

    constructor ()
      ensures State() == Movements(Idle, Idle)
    {
      movementP1, movementP2 := Idle, Idle;
    }

    method HandleKeyDown(key: string, isOnePlayerMode: bool)
      modifies this
      ensures State() == KeyDown(old(State()), key, isOnePlayerMode)
    {
      var k := ToLower(key);
      if IsP1UpKey(k) {
        movementP1 := Up;
      } else if IsP1DownKey(k) {
        movementP1 := Down;
      } else if IsP2UpKey(k) {
        if !isOnePlayerMode {
          movementP2 := Up;
        }
      } else if IsP2DownKey(k) {
        if !isOnePlayerMode {
          movementP2 := Down;
        }
      }
    }

    method HandleKeyUp(key: string)
      modifies this
      ensures State() == KeyUp(old(State()), key)
    {
      var k := ToLower(key);
      if IsP1UpKey(k) {
        if movementP1 == Up {
          movementP1 := Idle;
        }
      } else if IsP1DownKey(k) {
        if movementP1 == Down {
          movementP1 := Idle;
        }
      } else if IsP2UpKey(k) {
        if movementP2 == Up {
          movementP2 := Idle;
        }
      } else if IsP2DownKey(k) {
        if movementP2 == Down {
          movementP2 := Idle;
        }
      }
    }

    /** `setMovementP1(null)` and `setMovementP2(null)`, as a game reset calls them. */
    method Clear()
      modifies this
      ensures State() == Movements(Idle, Idle)
    {
      movementP1, movementP2 := Idle, Idle;
    }
  }
}
