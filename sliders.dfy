// Ray-walking generation of rook, bishop and queen moves on bitboards.
// A walk is driven by one of the eight one-step shifts, passed in as a
// function value just as the generators pass their step functions.
module Sliders {
  import opened Bitwise

  /** `n` applications of the step function. */
  function Iter(step: bv64 -> bv64, b: bv64, n: nat): bv64
    decreases n
  {
    if n == 0 then b else Iter(step, step(b), n - 1)
  }

  /** A step function the sliders may walk with: eight steps empty every bitboard. */
  ghost predicate LeavesBoard(step: bv64 -> bv64)
  {
    forall b :: Iter(step, b, 8) == 0
  }

  /** Eight steps of the walk, written out. */
  lemma IterUnrolled(step: bv64 -> bv64, b: bv64)
    ensures Iter(step, b, 8) == step(step(step(step(step(step(step(step(b))))))))
  {
    var b1 := step(b);
    var b2 := step(b1);
    var b3 := step(b2);
    var b4 := step(b3);
    var b5 := step(b4);
    var b6 := step(b5);
    var b7 := step(b6);
    assert Iter(step, b, 8) == Iter(step, b1, 7);
    assert Iter(step, b1, 7) == Iter(step, b2, 6);
    assert Iter(step, b2, 6) == Iter(step, b3, 5);
    assert Iter(step, b3, 5) == Iter(step, b4, 4);
    assert Iter(step, b4, 4) == Iter(step, b5, 3);
    assert Iter(step, b5, 3) == Iter(step, b6, 2);
    assert Iter(step, b6, 2) == Iter(step, b7, 1);
  }

  // Eight one-square steps in any one direction push every square off the
  // board (each step masks off the file or rank it would wrap across).

  lemma EastVanishes(b: bv64)
    ensures EastOne(EastOne(EastOne(EastOne(EastOne(EastOne(EastOne(EastOne(b)))))))) == 0
  {
  }

  lemma NoEaVanishes(b: bv64)
    ensures NoEaOne(NoEaOne(NoEaOne(NoEaOne(NoEaOne(NoEaOne(NoEaOne(NoEaOne(b)))))))) == 0
  {
  }

  lemma SoEaVanishes(b: bv64)
    ensures SoEaOne(SoEaOne(SoEaOne(SoEaOne(SoEaOne(SoEaOne(SoEaOne(SoEaOne(b)))))))) == 0
  {
  }

  lemma WestVanishes(b: bv64)
    ensures WestOne(WestOne(WestOne(WestOne(WestOne(WestOne(WestOne(WestOne(b)))))))) == 0
  {
  }

  lemma SoWeVanishes(b: bv64)
    ensures SoWeOne(SoWeOne(SoWeOne(SoWeOne(SoWeOne(SoWeOne(SoWeOne(SoWeOne(b)))))))) == 0
  {
  }

  lemma NoWeVanishes(b: bv64)
    ensures NoWeOne(NoWeOne(NoWeOne(NoWeOne(NoWeOne(NoWeOne(NoWeOne(NoWeOne(b)))))))) == 0
  {
  }

  lemma SouthVanishes(b: bv64)
    ensures SouthOne(SouthOne(SouthOne(SouthOne(SouthOne(SouthOne(SouthOne(SouthOne(b)))))))) == 0
  {
  }

  lemma NorthVanishes(b: bv64)
    ensures NorthOne(NorthOne(NorthOne(NorthOne(NorthOne(NorthOne(NorthOne(NorthOne(b)))))))) == 0
  {
  }

  /** Each of the eight one-step shifts leaves the board within eight steps. */
  lemma StepsLeaveBoard()
    ensures LeavesBoard(EastOne) && LeavesBoard(NoEaOne) && LeavesBoard(SoEaOne) && LeavesBoard(WestOne)
    ensures LeavesBoard(SoWeOne) && LeavesBoard(NoWeOne) && LeavesBoard(SouthOne) && LeavesBoard(NorthOne)
  {
    forall b: bv64 ensures Iter(EastOne, b, 8) == 0 { IterUnrolled(EastOne, b); EastVanishes(b); }
    forall b: bv64 ensures Iter(NoEaOne, b, 8) == 0 { IterUnrolled(NoEaOne, b); NoEaVanishes(b); }
    forall b: bv64 ensures Iter(SoEaOne, b, 8) == 0 { IterUnrolled(SoEaOne, b); SoEaVanishes(b); }
    forall b: bv64 ensures Iter(WestOne, b, 8) == 0 { IterUnrolled(WestOne, b); WestVanishes(b); }
    forall b: bv64 ensures Iter(SoWeOne, b, 8) == 0 { IterUnrolled(SoWeOne, b); SoWeVanishes(b); }
    forall b: bv64 ensures Iter(NoWeOne, b, 8) == 0 { IterUnrolled(NoWeOne, b); NoWeVanishes(b); }
    forall b: bv64 ensures Iter(SouthOne, b, 8) == 0 { IterUnrolled(SouthOne, b); SouthVanishes(b); }
    forall b: bv64 ensures Iter(NorthOne, b, 8) == 0 { IterUnrolled(NorthOne, b); NorthVanishes(b); }
  }

  /**
   * The walk of a slider standing before `p`, ORed into `acc`: each square
   * reached by `step` is taken while it is on the board and not wholly
   * friendly, and the walk ends just after the first enemy square or after
   * `fuel` squares.
   */
  function Walk(step: bv64 -> bv64, p: bv64, enemy: bv64, friendly: bv64, fuel: nat, acc: bv64): bv64
    decreases fuel
  {
    if fuel == 0 || p == 0 || p & !friendly == 0 then acc
    else if p & enemy != 0 then acc | p
    else Walk(step, step(p), enemy, friendly, fuel - 1, acc | p)
  }

  /** `b` holds at most one square. */
  predicate AtMostOne(b: bv64)
  {
    b & (b - 1) == 0
  }

  /** A step function that maps a single square to a single square or to nothing. */
  ghost predicate KeepsSingle(step: bv64 -> bv64)
  {
    forall b {:trigger step(b)} :: AtMostOne(b) ==> AtMostOne(step(b))
  }

  lemma WithinOrLeft(acc: bv64, p: bv64, w: bv64)
    requires Within(acc | p, w)
    ensures Within(acc, w) && Within(p, w)
  {
  }

  lemma WithinTrans(a: bv64, b: bv64, c: bv64)
    requires Within(a, b) && Within(b, c)
    ensures Within(a, c)
  {
  }

  lemma WithinOrBoth(a: bv64, p: bv64, b: bv64)
    requires Within(a, b)
    ensures Within(a | p, b | p)
  {
  }

  /** A walk never drops a square it was given. */
  lemma {:induction false} WalkGrows(step: bv64 -> bv64, p: bv64, enemy: bv64, friendly: bv64, fuel: nat, acc: bv64)
    ensures Within(acc, Walk(step, p, enemy, friendly, fuel, acc))
    decreases fuel
  {
    if fuel == 0 || p == 0 || p & !friendly == 0 {
      assert Within(acc, acc);
    } else if p & enemy != 0 {
      assert Within(acc, acc | p);
    } else {
      WalkGrows(step, step(p), enemy, friendly, fuel - 1, acc | p);
      WithinOrLeft(acc, p, Walk(step, step(p), enemy, friendly, fuel - 1, acc | p));
    }
  }

  lemma SingleFree(p: bv64, friendly: bv64, acc: bv64)
    requires AtMostOne(p) && p & !friendly != 0 && acc & friendly == 0
    ensures (acc | p) & friendly == 0
  {
  }

  /** Walking from a single square never takes a friendly square. */
  lemma {:induction false} WalkAvoidsFriendly(step: bv64 -> bv64, p: bv64, enemy: bv64, friendly: bv64, fuel: nat, acc: bv64)
    requires KeepsSingle(step) && AtMostOne(p) && acc & friendly == 0
    ensures Walk(step, p, enemy, friendly, fuel, acc) & friendly == 0
    decreases fuel
  {
    if fuel == 0 || p == 0 || p & !friendly == 0 {
      StopKeepsFree(step, p, enemy, friendly, fuel, acc);
    } else if p & enemy != 0 {
      SingleFree(p, friendly, acc);
      CaptureKeepsFree(step, p, enemy, friendly, fuel, acc);
    } else {
      SingleFree(p, friendly, acc);
      WalkAvoidsFriendly(step, step(p), enemy, friendly, fuel - 1, acc | p);
      ContinueKeepsFree(step, p, enemy, friendly, fuel, acc);
    }
  }

  lemma StopKeepsFree(step: bv64 -> bv64, p: bv64, enemy: bv64, friendly: bv64, fuel: nat, acc: bv64)
    requires fuel == 0 || p == 0 || p & !friendly == 0
    requires acc & friendly == 0
    ensures Walk(step, p, enemy, friendly, fuel, acc) & friendly == 0
  {
    WalkStops(step, p, enemy, friendly, fuel, acc);
  }

  lemma CaptureKeepsFree(step: bv64 -> bv64, p: bv64, enemy: bv64, friendly: bv64, fuel: nat, acc: bv64)
    requires fuel > 0 && p != 0 && p & !friendly != 0 && p & enemy != 0
    requires (acc | p) & friendly == 0
    ensures Walk(step, p, enemy, friendly, fuel, acc) & friendly == 0
  {
    WalkCaptures(step, p, enemy, friendly, fuel, acc);
  }

  lemma ContinueKeepsFree(step: bv64 -> bv64, p: bv64, enemy: bv64, friendly: bv64, fuel: nat, acc: bv64)
    requires fuel > 0 && p != 0 && p & !friendly != 0 && p & enemy == 0
    requires Walk(step, step(p), enemy, friendly, fuel - 1, acc | p) & friendly == 0
    ensures Walk(step, p, enemy, friendly, fuel, acc) & friendly == 0
  {
    WalkContinues(step, p, enemy, friendly, fuel, acc);
  }

  lemma WalkStops(step: bv64 -> bv64, p: bv64, enemy: bv64, friendly: bv64, fuel: nat, acc: bv64)
    requires fuel == 0 || p == 0 || p & !friendly == 0
    ensures Walk(step, p, enemy, friendly, fuel, acc) == acc
  {
  }

  lemma WalkCaptures(step: bv64 -> bv64, p: bv64, enemy: bv64, friendly: bv64, fuel: nat, acc: bv64)
    requires fuel > 0 && p != 0 && p & !friendly != 0 && p & enemy != 0
    ensures Walk(step, p, enemy, friendly, fuel, acc) == acc | p
  {
  }

  lemma WalkContinues(step: bv64 -> bv64, p: bv64, enemy: bv64, friendly: bv64, fuel: nat, acc: bv64)
    requires fuel > 0 && p != 0 && p & !friendly != 0 && p & enemy == 0
    ensures Walk(step, p, enemy, friendly, fuel, acc) == Walk(step, step(p), enemy, friendly, fuel - 1, acc | p)
  {
  }

  /** Square `q` lets a walk go on past it: on the board, not friendly, not an enemy. */
  predicate Open(q: bv64, enemy: bv64, friendly: bv64)
  {
    q != 0 && q & !friendly != 0 && q & enemy == 0
  }

  /** Square `q` is on the board, not friendly, and an enemy: a walk takes it and ends. */
  predicate Capturable(q: bv64, enemy: bv64, friendly: bv64)
  {
    q & !friendly != 0 && q & enemy != 0
  }

  /** Square `q` is off the board or friendly: a walk ends before it. */
  predicate Stops(q: bv64, friendly: bv64)
  {
    q & !friendly == 0
  }

  /** The first `n` squares of the ray from `p` are open. */
  predicate OpenRun(step: bv64 -> bv64, p: bv64, enemy: bv64, friendly: bv64, n: nat)
    decreases n
  {
    n == 0 || (Open(p, enemy, friendly) && OpenRun(step, step(p), enemy, friendly, n - 1))
  }

  lemma IterAhead(step: bv64 -> bv64, p: bv64, n: nat)
    requires n > 0
    ensures Iter(step, p, n) == Iter(step, step(p), n - 1)
  {
  }

  /**
   * A ray takes every open square up to and including the first enemy
   * square, and nothing past it: the walk is the empty-board walk cut just
   * after that square.
   */
  lemma {:induction false} WalkEndsOnFirstEnemy(step: bv64 -> bv64, p: bv64, enemy: bv64, friendly: bv64, fuel: nat, acc: bv64, n: nat)
    requires n < fuel
    requires OpenRun(step, p, enemy, friendly, n)
    requires Capturable(Iter(step, p, n), enemy, friendly)
    ensures Walk(step, p, enemy, friendly, fuel, acc) == Walk(step, p, 0, 0, n + 1, acc)
    decreases n
  {
    if n == 0 {
      CaptureEndsWalk(step, p, enemy, friendly, fuel, acc);
    } else {
      EnemyAhead(step, p, enemy, friendly, n);
      WalkEndsOnFirstEnemy(step, step(p), enemy, friendly, fuel - 1, acc | p, n - 1);
      OpenSquareContinues(step, p, enemy, friendly, fuel, acc, n + 1);
    }
  }

  /** One square further along an open run, the first enemy square is one step nearer. */
  lemma EnemyAhead(step: bv64 -> bv64, p: bv64, enemy: bv64, friendly: bv64, n: nat)
    requires n > 0 && OpenRun(step, p, enemy, friendly, n)
    requires Capturable(Iter(step, p, n), enemy, friendly)
    ensures Open(p, enemy, friendly) && OpenRun(step, step(p), enemy, friendly, n - 1)
    ensures Capturable(Iter(step, step(p), n - 1), enemy, friendly)
  {
    IterAhead(step, p, n);
  }

  lemma RunAhead(step: bv64 -> bv64, p: bv64, enemy: bv64, friendly: bv64, n: nat)
    requires n > 0 && OpenRun(step, p, enemy, friendly, n) && Iter(step, p, n) != 0
    ensures Open(p, enemy, friendly) && OpenRun(step, step(p), enemy, friendly, n - 1)
    ensures Iter(step, step(p), n - 1) == Iter(step, p, n)
  {
    IterAhead(step, p, n);
  }

  lemma CaptureEndsWalk(step: bv64 -> bv64, p: bv64, enemy: bv64, friendly: bv64, fuel: nat, acc: bv64)
    requires fuel > 0 && Capturable(p, enemy, friendly)
    ensures Walk(step, p, enemy, friendly, fuel, acc) == Walk(step, p, 0, 0, 1, acc)
  {
    CapturableOnBoard(p, enemy, friendly);
    WalkCaptures(step, p, enemy, friendly, fuel, acc);
    FreeWalkOne(step, p, acc);
  }

  lemma CapturableOnBoard(q: bv64, enemy: bv64, friendly: bv64)
    requires Capturable(q, enemy, friendly)
    ensures q != 0 && q & !friendly != 0 && q & enemy != 0
  {
  }

  /** The empty-board walk of one square from a square on the board takes just that square. */
  lemma FreeWalkOne(step: bv64 -> bv64, p: bv64, acc: bv64)
    requires p != 0
    ensures Walk(step, p, 0, 0, 1, acc) == acc | p
  {
    WalkContinues(step, p, 0, 0, 1, acc);
    WalkStops(step, step(p), 0, 0, 0, acc | p);
  }

  lemma WithinJoin(p: bv64, acc: bv64)
    ensures Within(p, acc | p)
  {
  }

  /** Past an open square, the walk and the empty-board walk both go on to the next one. */
  lemma OpenSquareContinues(step: bv64 -> bv64, p: bv64, enemy: bv64, friendly: bv64, fuel: nat, acc: bv64, n: nat)
    requires fuel > 0 && n > 0 && Open(p, enemy, friendly)
    ensures Walk(step, p, enemy, friendly, fuel, acc) == Walk(step, step(p), enemy, friendly, fuel - 1, acc | p)
    ensures Walk(step, p, 0, 0, n, acc) == Walk(step, step(p), 0, 0, n - 1, acc | p)
  {
    WalkContinues(step, p, enemy, friendly, fuel, acc);
    WalkContinues(step, p, 0, 0, n, acc);
  }

  /** The empty-board walk of `n + 1` squares from `p` takes square `n` of the ray. */
  predicate TakesLast(step: bv64 -> bv64, p: bv64, acc: bv64, n: nat)
  {
    Within(Iter(step, p, n), Walk(step, p, 0, 0, n + 1, acc))
  }

  /** The empty-board walk over an open run and one square more takes that square. */
  lemma {:induction false} FreeWalkTakesLast(step: bv64 -> bv64, p: bv64, enemy: bv64, friendly: bv64, acc: bv64, n: nat)
    requires OpenRun(step, p, enemy, friendly, n) && Iter(step, p, n) != 0
    ensures TakesLast(step, p, acc, n)
    decreases n
  {
    if n == 0 {
      FreeWalkTakesFirst(step, p, acc);
    } else {
      RunAhead(step, p, enemy, friendly, n);
      FreeWalkTakesLast(step, step(p), enemy, friendly, acc | p, n - 1);
      TakenAhead(step, p, enemy, friendly, acc, n);
    }
  }

  lemma FreeWalkTakesFirst(step: bv64 -> bv64, p: bv64, acc: bv64)
    requires Iter(step, p, 0) != 0
    ensures TakesLast(step, p, acc, 0)
  {
    FreeWalkOne(step, p, acc);
    WithinJoin(p, acc);
  }

  lemma TakenAhead(step: bv64 -> bv64, p: bv64, enemy: bv64, friendly: bv64, acc: bv64, n: nat)
    requires n > 0 && Open(p, enemy, friendly) && Iter(step, step(p), n - 1) == Iter(step, p, n)
    requires TakesLast(step, step(p), acc | p, n - 1)
    ensures TakesLast(step, p, acc, n)
  {
    OpenSquareContinues(step, p, enemy, friendly, 1, acc, n + 1);
  }

  /** So the first enemy square of a ray is one of its moves. */
  lemma WalkTakesFirstEnemy(step: bv64 -> bv64, p: bv64, enemy: bv64, friendly: bv64, fuel: nat, acc: bv64, n: nat)
    requires n < fuel
    requires OpenRun(step, p, enemy, friendly, n)
    requires Capturable(Iter(step, p, n), enemy, friendly)
    ensures Within(Iter(step, p, n), Walk(step, p, enemy, friendly, fuel, acc))
  {
    WalkEndsOnFirstEnemy(step, p, enemy, friendly, fuel, acc, n);
    CapturableOnBoard(Iter(step, p, n), enemy, friendly);
    FreeWalkTakesLast(step, p, enemy, friendly, acc, n);
  }

  /**
   * A ray takes every open square before the first friendly square (or the
   * edge of the board) and stops there without taking it.
   */
  lemma {:induction false} WalkEndsBeforeFriendly(step: bv64 -> bv64, p: bv64, enemy: bv64, friendly: bv64, fuel: nat, acc: bv64, n: nat)
    requires n < fuel
    requires OpenRun(step, p, enemy, friendly, n)
    requires Stops(Iter(step, p, n), friendly)
    ensures Walk(step, p, enemy, friendly, fuel, acc) == Walk(step, p, 0, 0, n, acc)
    decreases n
  {
    if n == 0 {
      WalkStops(step, p, enemy, friendly, fuel, acc);
    } else {
      IterAhead(step, p, n);
      WalkEndsBeforeFriendly(step, step(p), enemy, friendly, fuel - 1, acc | p, n - 1);
      OpenSquareContinues(step, p, enemy, friendly, fuel, acc, n);
    }
  }

  /** Pieces only cut a walk short: a blocked walk is part of the walk over an empty board. */
  lemma {:induction false} WalkWithinFreeWalk(step: bv64 -> bv64, p: bv64, enemy: bv64, friendly: bv64, fuel: nat, acc: bv64, free: bv64)
    requires Within(acc, free)
    ensures Within(Walk(step, p, enemy, friendly, fuel, acc), Walk(step, p, 0, 0, fuel, free))
    decreases fuel
  {
    var w := Walk(step, p, 0, 0, fuel, free);
    if fuel == 0 || p == 0 {
      assert w == free;
    } else {
      var q := step(p);
      assert w == Walk(step, q, 0, 0, fuel - 1, free | p);
      WalkGrows(step, q, 0, 0, fuel - 1, free | p);
      WithinOrBoth(acc, p, free);
      if p & !friendly == 0 {
        WithinOrLeft(free, p, w);
        WithinTrans(acc, free, w);
      } else if p & enemy != 0 {
        WithinTrans(acc | p, free | p, w);
      } else {
        WalkWithinFreeWalk(step, q, enemy, friendly, fuel - 1, acc | p, free | p);
      }
    }
  }

  /**
   * `generate_sliding_moves`: walks from the square after `initial` by
   * `step`, ORing every square it reaches into `moves`.
   */
  method GenerateSlidingMoves(enemy: bv64, friendly: bv64, initial: bv64, moves: bv64, step: bv64 -> bv64)
    returns (result: bv64)
    requires LeavesBoard(step)
    ensures result == Walk(step, step(initial), enemy, friendly, 8, moves)
  {
    result := moves;
    var position := step(initial);
    ghost var fuel: nat := 8;
    while position != 0 && position & !friendly != 0
      invariant Iter(step, position, fuel) == 0
      invariant Walk(step, position, enemy, friendly, fuel, result) == Walk(step, step(initial), enemy, friendly, 8, moves)
      decreases fuel
    {
      result := result | position;
      if position & enemy != 0 {
        return;
      }
      position := step(position);
      fuel := fuel - 1;
    }
  }

  lemma ShiftSingle(b: bv64)
    requires AtMostOne(b)
    ensures AtMostOne(b << 1) && AtMostOne(b << 9) && AtMostOne(b >> 7) && AtMostOne(b >> 1)
    ensures AtMostOne(b >> 9) && AtMostOne(b << 7) && AtMostOne(b >> 8) && AtMostOne(b << 8)
  {
  }

  lemma MaskSingle(b: bv64, m: bv64)
    requires AtMostOne(b)
    ensures AtMostOne(b & m)
  {
  }

  /** Each of the eight one-step shifts moves a single square to a single square or off the board. */
  lemma StepsKeepSingle()
    ensures KeepsSingle(EastOne) && KeepsSingle(NoEaOne) && KeepsSingle(SoEaOne) && KeepsSingle(WestOne)
    ensures KeepsSingle(SoWeOne) && KeepsSingle(NoWeOne) && KeepsSingle(SouthOne) && KeepsSingle(NorthOne)
  {
    EastOneKeepsSingle();
    NoEaOneKeepsSingle();
    SoEaOneKeepsSingle();
    WestOneKeepsSingle();
    SoWeOneKeepsSingle();
    NoWeOneKeepsSingle();
    SouthOneKeepsSingle();
    NorthOneKeepsSingle();
  }

  lemma EastOneKeepsSingle()
    ensures KeepsSingle(EastOne)
  {
    forall b | AtMostOne(b)
      ensures AtMostOne(EastOne(b))
    {
      ShiftSingle(b);
      MaskSingle(b << 1, NOT_A_FILE);
    }
  }

  lemma NoEaOneKeepsSingle()
    ensures KeepsSingle(NoEaOne)
  {
    forall b | AtMostOne(b)
      ensures AtMostOne(NoEaOne(b))
    {
      ShiftSingle(b);
      MaskSingle(b << 9, NOT_A_FILE);
    }
  }

  lemma SoEaOneKeepsSingle()
    ensures KeepsSingle(SoEaOne)
  {
    forall b | AtMostOne(b)
      ensures AtMostOne(SoEaOne(b))
    {
      ShiftSingle(b);
      MaskSingle(b >> 7, NOT_A_FILE);
    }
  }

  lemma WestOneKeepsSingle()
    ensures KeepsSingle(WestOne)
  {
    forall b | AtMostOne(b)
      ensures AtMostOne(WestOne(b))
    {
      ShiftSingle(b);
      MaskSingle(b >> 1, NOT_H_FILE);
    }
  }

  lemma SoWeOneKeepsSingle()
    ensures KeepsSingle(SoWeOne)
  {
    forall b | AtMostOne(b)
      ensures AtMostOne(SoWeOne(b))
    {
      ShiftSingle(b);
      MaskSingle(b >> 9, NOT_H_FILE);
    }
  }

  lemma NoWeOneKeepsSingle()
    ensures KeepsSingle(NoWeOne)
  {
    forall b | AtMostOne(b)
      ensures AtMostOne(NoWeOne(b))
    {
      ShiftSingle(b);
      MaskSingle(b << 7, NOT_H_FILE);
    }
  }

  lemma SouthOneKeepsSingle()
    ensures KeepsSingle(SouthOne)
  {
    forall b | AtMostOne(b)
      ensures AtMostOne(SouthOne(b))
    {
      ShiftSingle(b);
    }
  }

  lemma NorthOneKeepsSingle()
    ensures KeepsSingle(NorthOne)
  {
    forall b | AtMostOne(b)
      ensures AtMostOne(NorthOne(b))
    {
      ShiftSingle(b);
    }
  }

  /** Step functions a slider may be given: each leaves the board and keeps a single square single. */
  ghost predicate SlidingSteps(steps: seq<bv64 -> bv64>)
  {
    forall i :: 0 <= i < |steps| ==> LeavesBoard(steps[i]) && KeepsSingle(steps[i])
  }

  /** The rook's four directions, in the order the rook generator walks them. */
  const ROOK_STEPS: seq<bv64 -> bv64> := [NorthOne, SouthOne, WestOne, EastOne]

  /** The bishop's four directions, in the order the bishop generator walks them. */
  const BISHOP_STEPS: seq<bv64 -> bv64> := [NoWeOne, SoWeOne, SoEaOne, NoEaOne]

  lemma PieceStepsSlide()
    ensures SlidingSteps(ROOK_STEPS) && SlidingSteps(BISHOP_STEPS)
  {
    StepsLeaveBoard();
    StepsKeepSingle();
  }

  /** One walk per step function, in order, all ORed into `acc`. */
  function Slide(steps: seq<bv64 -> bv64>, enemy: bv64, friendly: bv64, initial: bv64, acc: bv64): bv64
    decreases |steps|
  {
    if |steps| == 0 then acc
    else Slide(steps[1..], enemy, friendly, initial, Walk(steps[0], steps[0](initial), enemy, friendly, 8, acc))
  }

  /** The squares a rook on `initial` reaches. */
  function RookMoves(enemy: bv64, friendly: bv64, initial: bv64): bv64
  {
    Slide(ROOK_STEPS, enemy, friendly, initial, 0)
  }

  /** The squares a bishop on `initial` reaches. */
  function BishopMoves(enemy: bv64, friendly: bv64, initial: bv64): bv64
  {
    Slide(BISHOP_STEPS, enemy, friendly, initial, 0)
  }

  /** The squares a queen on `initial` reaches: the bishop's and the rook's. */
  function QueenMoves(enemy: bv64, friendly: bv64, initial: bv64): bv64
  {
    BishopMoves(enemy, friendly, initial) | RookMoves(enemy, friendly, initial)
  }

  /** A slide keeps every square it was given. */
  lemma {:induction false} SlideGrows(steps: seq<bv64 -> bv64>, enemy: bv64, friendly: bv64, initial: bv64, acc: bv64)
    ensures Within(acc, Slide(steps, enemy, friendly, initial, acc))
    decreases |steps|
  {
    if |steps| > 0 {
      var next := Walk(steps[0], steps[0](initial), enemy, friendly, 8, acc);
      WalkGrows(steps[0], steps[0](initial), enemy, friendly, 8, acc);
      SlideGrows(steps[1..], enemy, friendly, initial, next);
      WithinTrans(acc, next, Slide(steps, enemy, friendly, initial, acc));
    }
  }

  /** A slider on a single square never reaches a square of its own side. */
  lemma {:induction false} SlideAvoidsFriendly(steps: seq<bv64 -> bv64>, enemy: bv64, friendly: bv64, initial: bv64, acc: bv64)
    requires SlidingSteps(steps) && AtMostOne(initial) && acc & friendly == 0
    ensures Slide(steps, enemy, friendly, initial, acc) & friendly == 0
    decreases |steps|
  {
    if |steps| > 0 {
      var step := steps[0];
      assert LeavesBoard(step) && KeepsSingle(step);
      assert AtMostOne(step(initial));
      WalkAvoidsFriendly(step, step(initial), enemy, friendly, 8, acc);
      assert SlidingSteps(steps[1..]) by {
        forall i | 0 <= i < |steps[1..]|
          ensures LeavesBoard(steps[1..][i]) && KeepsSingle(steps[1..][i])
        {
          assert steps[1..][i] == steps[i + 1];
        }
      }
      SlideAvoidsFriendly(steps[1..], enemy, friendly, initial, Walk(step, step(initial), enemy, friendly, 8, acc));
    }
  }

  /** Pieces only cut a slide short: the slide is part of the slide over an empty board. */
  lemma {:induction false} SlideWithinFreeSlide(steps: seq<bv64 -> bv64>, enemy: bv64, friendly: bv64, initial: bv64, acc: bv64, free: bv64)
    requires Within(acc, free)
    ensures Within(Slide(steps, enemy, friendly, initial, acc), Slide(steps, 0, 0, initial, free))
    decreases |steps|
  {
    if |steps| > 0 {
      var step := steps[0];
      WalkWithinFreeWalk(step, step(initial), enemy, friendly, 8, acc, free);
      SlideWithinFreeSlide(steps[1..], enemy, friendly, initial,
        Walk(step, step(initial), enemy, friendly, 8, acc), Walk(step, step(initial), 0, 0, 8, free));
    }
  }

  /**
   * `generate_rook_moves` / `generate_bishop_moves`: one sliding walk per
   * step function, all ORed into one bitboard.
   */
  method GenerateSlides(enemy: bv64, friendly: bv64, initial: bv64, steps: seq<bv64 -> bv64>)
    returns (moves: bv64)
    requires SlidingSteps(steps)
    ensures moves == Slide(steps, enemy, friendly, initial, 0)
  {
    moves := 0;
    for i := 0 to |steps|
      invariant Slide(steps[i..], enemy, friendly, initial, moves) == Slide(steps, enemy, friendly, initial, 0)
    {
      assert steps[i..][1..] == steps[i + 1..];
      moves := GenerateSlidingMoves(enemy, friendly, initial, moves, steps[i]);
    }
  }

  /** `generate_rook_moves`. */
  method GenerateRookMoves(enemy: bv64, friendly: bv64, initial: bv64) returns (moves: bv64)
    ensures moves == RookMoves(enemy, friendly, initial)
  {
    PieceStepsSlide();
    moves := GenerateSlides(enemy, friendly, initial, ROOK_STEPS);
  }

  /** `generate_bishop_moves`. */
  method GenerateBishopMoves(enemy: bv64, friendly: bv64, initial: bv64) returns (moves: bv64)
    ensures moves == BishopMoves(enemy, friendly, initial)
  {
    PieceStepsSlide();
    moves := GenerateSlides(enemy, friendly, initial, BISHOP_STEPS);
  }

  /** `generate_queen_moves`. */
  method GenerateQueenMoves(enemy: bv64, friendly: bv64, initial: bv64) returns (moves: bv64)
    ensures moves == QueenMoves(enemy, friendly, initial)
  {
    var bishop := GenerateBishopMoves(enemy, friendly, initial);
    var rook := GenerateRookMoves(enemy, friendly, initial);
    moves := bishop | rook;
  }

  /** A rook, bishop or queen on one square never reaches a square of its own side. */
  lemma SlidersAvoidFriendly(enemy: bv64, friendly: bv64, initial: bv64)
    requires AtMostOne(initial)
    ensures RookMoves(enemy, friendly, initial) & friendly == 0
    ensures BishopMoves(enemy, friendly, initial) & friendly == 0
    ensures QueenMoves(enemy, friendly, initial) & friendly == 0
  {
    RookAvoidsFriendly(enemy, friendly, initial);
    BishopAvoidsFriendly(enemy, friendly, initial);
  }

  lemma RookAvoidsFriendly(enemy: bv64, friendly: bv64, initial: bv64)
    requires AtMostOne(initial)
    ensures RookMoves(enemy, friendly, initial) & friendly == 0
  {
    PieceStepsSlide();
    SlideAvoidsFriendly(ROOK_STEPS, enemy, friendly, initial, 0);
  }

  lemma BishopAvoidsFriendly(enemy: bv64, friendly: bv64, initial: bv64)
    requires AtMostOne(initial)
    ensures BishopMoves(enemy, friendly, initial) & friendly == 0
  {
    PieceStepsSlide();
    SlideAvoidsFriendly(BISHOP_STEPS, enemy, friendly, initial, 0);
  }

  /** Pieces on the board only take squares away from a slider's empty-board moves. */
  lemma RookWithinEmptyBoard(enemy: bv64, friendly: bv64, initial: bv64)
    ensures Within(RookMoves(enemy, friendly, initial), RookMoves(0, 0, initial))
  {
    SlideWithinFreeSlide(ROOK_STEPS, enemy, friendly, initial, 0, 0);
  }

  /** The same for the bishop. */
  lemma BishopWithinEmptyBoard(enemy: bv64, friendly: bv64, initial: bv64)
    ensures Within(BishopMoves(enemy, friendly, initial), BishopMoves(0, 0, initial))
  {
    SlideWithinFreeSlide(BISHOP_STEPS, enemy, friendly, initial, 0, 0);
  }
}
