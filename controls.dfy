/** The keyboard controls of the player paddle: the `keys` dictionary of held
    arrows and the paddle velocity dy set by the keydown and keyup handlers. */
module Controls {

  const ARROW_UP: string := "ArrowUp"
  const ARROW_DOWN: string := "ArrowDown"

  /** The held-key dictionary and the player paddle's dy. */
  datatype Keyboard = Keyboard(keys: map<string, bool>, dy: real)

  /** A key counts as held when the dictionary maps it to true (a missing key is falsy). */
  predicate Held(keys: map<string, bool>, key: string) { key in keys && keys[key] }

  /** Space (or the legacy "Spacebar" name) pauses and resumes the game. */
  predicate IsToggleKey(key: string) { key == " " || key == "Spacebar" }

  /** The keydown handler on the keyboard state: an arrow marks itself held and
      sets dy to its own direction; any other key leaves both unchanged. */
  function KeyDown(kb: Keyboard, key: string, speed: real): (r: Keyboard)
    ensures key == ARROW_UP ==> Held(r.keys, ARROW_UP) && r.dy == -speed
    ensures key == ARROW_DOWN ==> Held(r.keys, ARROW_DOWN) && r.dy == speed
    ensures key != ARROW_UP && key != ARROW_DOWN ==> r == kb
    ensures forall k :: k != key ==> (Held(r.keys, k) <==> Held(kb.keys, k))
  {
    if key == ARROW_UP then Keyboard(kb.keys[ARROW_UP := true], -speed)
    else if key == ARROW_DOWN then Keyboard(kb.keys[ARROW_DOWN := true], speed)
    else kb
  }

  /** The keyup handler: releasing an arrow marks it not held; dy becomes the
      other arrow's direction if that one is still held, and 0 otherwise. */
  function KeyUp(kb: Keyboard, key: string, speed: real): (r: Keyboard)
    ensures key == ARROW_UP ==>
              !Held(r.keys, ARROW_UP) && r.dy == if Held(kb.keys, ARROW_DOWN) then speed else 0.0
    ensures key == ARROW_DOWN ==>
              !Held(r.keys, ARROW_DOWN) && r.dy == if Held(kb.keys, ARROW_UP) then -speed else 0.0
    ensures key != ARROW_UP && key != ARROW_DOWN ==> r == kb
    ensures forall k :: k != key ==> (Held(r.keys, k) <==> Held(kb.keys, k))
  {
    if key == ARROW_UP then
      Keyboard(kb.keys[ARROW_UP := false], if !Held(kb.keys, ARROW_DOWN) then 0.0 else speed)
    else if key == ARROW_DOWN then
      Keyboard(kb.keys[ARROW_DOWN := false], if !Held(kb.keys, ARROW_UP) then 0.0 else -speed)
    else kb
  }

  /** dy is one of -speed, 0 and speed, and agrees with the held arrows: none
      held means no motion, exactly one held moves in its direction (with both
      held, the one pressed last decides). */
  predicate Consistent(kb: Keyboard, speed: real) {
    var up, down := Held(kb.keys, ARROW_UP), Held(kb.keys, ARROW_DOWN);
    && (kb.dy == -speed || kb.dy == 0.0 || kb.dy == speed)
    && (!up && !down ==> kb.dy == 0.0)
    && (up && !down ==> kb.dy == -speed)
    && (down && !up ==> kb.dy == speed)
  }

  lemma KeyDownKeepsConsistent(kb: Keyboard, key: string, speed: real)
    requires Consistent(kb, speed)
    ensures Consistent(KeyDown(kb, key, speed), speed)
  {
  }

  lemma KeyUpKeepsConsistent(kb: Keyboard, key: string, speed: real)
    requires Consistent(kb, speed)
    ensures Consistent(KeyUp(kb, key, speed), speed)
  {
  }

  /** The last-held-key-wins quirk: press up, press down, release down, and
      the paddle moves up again rather than stopping. */
  lemma ReleaseFallsBackToHeldKey(kb: Keyboard, speed: real)
    ensures var r := KeyUp(KeyDown(KeyDown(kb, ARROW_UP, speed), ARROW_DOWN, speed), ARROW_DOWN, speed);
      r.dy == -speed && Held(r.keys, ARROW_UP) && !Held(r.keys, ARROW_DOWN)
  {
    var a := KeyDown(kb, ARROW_UP, speed);
    var b := KeyDown(a, ARROW_DOWN, speed);
    assert Held(b.keys, ARROW_UP);
  }

  /** Releasing both arrows, in either order, stops the paddle. */
  lemma ReleaseBothStops(kb: Keyboard, first: string, speed: real)
    requires first == ARROW_UP || first == ARROW_DOWN
    ensures var second := if first == ARROW_UP then ARROW_DOWN else ARROW_UP;
      var r := KeyUp(KeyUp(kb, first, speed), second, speed);
      r.dy == 0.0 && !Held(r.keys, ARROW_UP) && !Held(r.keys, ARROW_DOWN)
  {
  }
}
