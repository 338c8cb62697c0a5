/** The three worker loops of the game, each as the sequence of event codes
    it emits. The sleeps between iterations, the thread start and stop
    calls and the delivery of the signals across threads are not modelled:
    a loop that reads a flag the handlers change takes, as a parameter, the
    values of that flag it reads at its loop tests. */
module Threads {

  // ---------------------------------------------------------------------
  // Counting iterations

  /** The loops test `not clock % period`: whether the counter is a multiple
      of the period. Defined by repeated subtraction, so that reasoning about
      one iteration needs no division; `DueIsMultiple` ties it to `%`. */
  function Due(clock: nat, period: nat): bool
    requires period >= 1
    decreases clock
  {
    if clock < period then clock == 0 else Due(clock - period, period)
  }

  /** Division with remainder has one answer: `q` and `r` are `n / d` and
      `n % d` as soon as `n == d * q + r` with `0 <= r < d`. */
  lemma DivUnique(n: int, d: int, q: int, r: int)
    requires d > 0 && 0 <= r < d && n == d * q + r
    ensures n / d == q && n % d == r
  {
    var q0, r0 := n / d, n % d;
    assert d * (q0 - q) == r - r0;
    assert q0 - q >= 1 ==> d * (q0 - q) >= d * 1;
    assert q - q0 >= 1 ==> d * (q - q0) >= d * 1;
  }

  lemma {:induction false} DueIsMultiple(clock: nat, period: nat)
    requires period >= 1
    ensures Due(clock, period) <==> clock % period == 0
    decreases clock
  {
    if clock < period {
      DivUnique(clock, period, 0, clock);
    } else {
      DueIsMultiple(clock - period, period);
      var c := clock - period;
      DivUnique(clock, period, c / period + 1, c % period);
    }
  }

  /** One more counter adds one to `n / d` exactly when it is a multiple of `d`. */
  lemma DivStep(n: nat, d: nat)
    requires n >= 1 && d >= 1
    ensures n / d == (n - 1) / d + (if n % d == 0 then 1 else 0)
  {
    var q, m := (n - 1) / d, (n - 1) % d;
    if m + 1 < d {
      DivUnique(n, d, q, m + 1);
    } else {
      DivUnique(n, d, q + 1, 0);
    }
  }

  /** One more counter adds one to `n / period` exactly when it is due. */
  lemma DueStep(n: nat, period: nat)
    requires n >= 1 && period >= 1
    ensures n / period == (n - 1) / period + (if Due(n, period) then 1 else 0)
  {
    DueIsMultiple(n, period);
    DivStep(n, period);
  }

  /** Appends `code` to `acc` when `cond` holds: one `emit` of a loop body. */
  function Emit(acc: seq<nat>, cond: bool, code: nat): seq<nat> {
    if cond then acc + [code] else acc
  }

  lemma EmitCount(acc: seq<nat>, cond: bool, code: nat, x: nat)
    ensures multiset(Emit(acc, cond, code))[x] == multiset(acc)[x] + (if cond && x == code then 1 else 0)
  {
  }

  /** Three `if`-guarded emits in a row add one occurrence per guard that holds. */
  lemma EmitThreeCount(acc: seq<nat>, b1: bool, c1: nat, b2: bool, c2: nat, b3: bool, c3: nat, x: nat)
    ensures multiset(Emit(Emit(Emit(acc, b1, c1), b2, c2), b3, c3))[x] ==
      multiset(acc)[x] + (if b1 && x == c1 then 1 else 0) + (if b2 && x == c2 then 1 else 0) + (if b3 && x == c3 then 1 else 0)
  {
    EmitCount(acc, b1, c1, x);
    EmitCount(Emit(acc, b1, c1), b2, c2, x);
    EmitCount(Emit(Emit(acc, b1, c1), b2, c2), b3, c3, x);
  }

  // ---------------------------------------------------------------------
  // Update: the master clock

  /** The codes the clock emits: health, hunger, happiness, age, discipline
      and cleaning. */
  predicate ClockCode(code: nat) {
    code == 0 || code == 1 || code == 2 || code == 3 || code == 5 || code == 6
  }

  /** How many iterations apart the clock emits each of its codes. */
  function Period(code: nat): (p: nat)
    requires ClockCode(code)
    ensures p >= 2
  {
    if code == 1 then 2
    else if code == 2 then 3
    else if code == 0 then 5
    else if code == 5 then 200
    else if code == 6 then 250
    else 600
  }

  /** The codes one iteration of `Update.run` emits, given which of its six
      events are due, in the loop body's order. */
  function Tick(hunger: bool, happiness: bool, health: bool, discipline: bool, cleaning: bool, age: bool): seq<nat> {
    Emit(Emit(Emit(Emit(Emit(Emit([], hunger, 1), happiness, 2), health, 0), discipline, 5), cleaning, 6), age, 3)
  }

  /** The codes `Update.run` emits on the iteration whose counter is `clock`:
      hunger every 2nd, happiness every 3rd, health every 5th, discipline every
      200th, cleaning every 250th and age every 600th, in that order. */
  function TickCodes(clock: nat): seq<nat> {
    Tick(Due(clock, 2), Due(clock, 3), Due(clock, 5), Due(clock, 200), Due(clock, 250), Due(clock, 600))
  }

  /** The codes of one update iteration, in the order the loop body emits
      them: hunger, happiness, health, discipline, cleaning, age. */
  lemma TickOrder(clock: nat)
    ensures TickCodes(clock) ==
      (if clock % 2 == 0 then [1] else []) + (if clock % 3 == 0 then [2] else []) +
      (if clock % 5 == 0 then [0] else []) + (if clock % 200 == 0 then [5] else []) +
      (if clock % 250 == 0 then [6] else []) + (if clock % 600 == 0 then [3] else [])
  {
    var e := [];
    e := EmitInOrder(e, clock, 2, 1);
    e := EmitInOrder(e, clock, 3, 2);
    e := EmitInOrder(e, clock, 5, 0);
    e := EmitInOrder(e, clock, 200, 5);
    e := EmitInOrder(e, clock, 250, 6);
    e := EmitInOrder(e, clock, 600, 3);
  }

  /** One `if not clock % period: emit(code)` appends `code` exactly when the
      counter is a multiple of the period. */
  lemma EmitInOrder(acc: seq<nat>, clock: nat, period: nat, code: nat) returns (e: seq<nat>)
    requires period >= 1
    ensures e == Emit(acc, Due(clock, period), code)
    ensures e == acc + (if clock % period == 0 then [code] else [])
    ensures acc == [] ==> e == (if clock % period == 0 then [code] else [])
  {
    DueIsMultiple(clock, period);
    e := Emit(acc, Due(clock, period), code);
  }

  /** The codes of the first `n` iterations, one iteration after another. */
  function UpdateCodes(n: nat): seq<nat> {
    if n == 0 then [] else UpdateCodes(n - 1) + TickCodes(n)
  }

  /** `Update.run`: the counter starts at 1 and goes up by one per iteration;
      before each iteration the loop reads the dead flag, and `deadSeen[k]`
      is the value it reads before the iteration with counter `k + 1`. The
      loop stops at the first `true`; when the readings run out it is still
      running, and `codes` is what it has emitted so far. */
  method UpdateRun(deadSeen: seq<bool>) returns (codes: seq<nat>, iterations: nat)
    ensures iterations <= |deadSeen|
    ensures forall k :: 0 <= k < iterations ==> !deadSeen[k]
    ensures iterations < |deadSeen| ==> deadSeen[iterations]
    ensures codes == UpdateCodes(iterations)
  {
    codes := [];
    var clock := 1;
    while clock <= |deadSeen| && !deadSeen[clock - 1]
      invariant 1 <= clock <= |deadSeen| + 1
      invariant forall k :: 0 <= k < clock - 1 ==> !deadSeen[k]
      invariant codes == UpdateCodes(clock - 1)
    {
      var emitted: seq<nat> := [];
      if Due(clock, 2) {
        emitted := emitted + [1];
      }
      if Due(clock, 3) {
        emitted := emitted + [2];
      }
      if Due(clock, 5) {
        emitted := emitted + [0];
      }
      if Due(clock, 200) {
        emitted := emitted + [5];
      }
      if Due(clock, 250) {
        emitted := emitted + [6];
      }
      if Due(clock, 600) {
        emitted := emitted + [3];
      }
      codes := codes + emitted;
      clock := clock + 1;
    }
    iterations := clock - 1;
  }

  /** An iteration emits each due event's code once, and nothing else. */
  lemma TickOfCount(hunger: bool, happiness: bool, health: bool, discipline: bool, cleaning: bool, age: bool, x: nat)
    ensures multiset(Tick(hunger, happiness, health, discipline, cleaning, age))[x] ==
      if x == 1 then (if hunger then 1 else 0)
      else if x == 2 then (if happiness then 1 else 0)
      else if x == 0 then (if health then 1 else 0)
      else if x == 5 then (if discipline then 1 else 0)
      else if x == 6 then (if cleaning then 1 else 0)
      else if x == 3 then (if age then 1 else 0)
      else 0
  {
    var e3 := Emit(Emit(Emit([], hunger, 1), happiness, 2), health, 0);
    TickDecays(hunger, happiness, health, x);
    EmitThreeCount(e3, discipline, 5, cleaning, 6, age, 3, x);
  }

  /** The first three emits of an iteration: the hunger, happiness and
      health decays. */
  lemma TickDecays(hunger: bool, happiness: bool, health: bool, x: nat)
    ensures multiset(Emit(Emit(Emit([], hunger, 1), happiness, 2), health, 0))[x] ==
      if x == 1 then (if hunger then 1 else 0)
      else if x == 2 then (if happiness then 1 else 0)
      else if x == 0 then (if health then 1 else 0)
      else 0
  {
    EmitThreeCount([], hunger, 1, happiness, 2, health, 0, x);
  }

  /** Iteration `clock` emits a clock code once when the counter is due for
      the code's period, and not otherwise. */
  lemma TickCount(clock: nat, code: nat)
    requires ClockCode(code)
    ensures multiset(TickCodes(clock))[code] == (if Due(clock, Period(code)) then 1 else 0)
  {
    TickOfCount(Due(clock, 2), Due(clock, 3), Due(clock, 5), Due(clock, 200), Due(clock, 250), Due(clock, 600), code);
  }

  /** No iteration emits a code other than the clock's six. */
  lemma TickOthers(clock: nat, code: nat)
    requires !ClockCode(code)
    ensures multiset(TickCodes(clock))[code] == 0
  {
    TickOfCount(Due(clock, 2), Due(clock, 3), Due(clock, 5), Due(clock, 200), Due(clock, 250), Due(clock, 600), code);
  }

  /** Over the first `n` iterations the clock emits each of its codes
      `n / Period(code)` times, and no other code. */
  lemma {:induction false} UpdateCount(n: nat, code: nat)
    ensures multiset(UpdateCodes(n))[code] == (if ClockCode(code) then n / Period(code) else 0)
  {
    if n > 0 {
      UpdateCount(n - 1, code);
      assert multiset(UpdateCodes(n)) == multiset(UpdateCodes(n - 1)) + multiset(TickCodes(n));
      if ClockCode(code) {
        TickCount(n, code);
        DueStep(n, Period(code));
      } else {
        TickOthers(n, code);
      }
    }
  }

  /** Over the first `n` iterations the clock emits `n / 2` hunger, `n / 3`
      happiness and `n / 5` health decays, `n / 200` discipline needs,
      `n / 250` cleaning needs and `n / 600` age events. */
  lemma UpdateCounts(n: nat)
    ensures multiset(UpdateCodes(n))[1] == n / 2
    ensures multiset(UpdateCodes(n))[2] == n / 3
    ensures multiset(UpdateCodes(n))[0] == n / 5
    ensures multiset(UpdateCodes(n))[5] == n / 200
    ensures multiset(UpdateCodes(n))[6] == n / 250
    ensures multiset(UpdateCodes(n))[3] == n / 600
  {
    UpdateCount(n, 1);
    UpdateCount(n, 2);
    UpdateCount(n, 0);
    UpdateCount(n, 5);
    UpdateCount(n, 6);
    UpdateCount(n, 3);
  }

  /** Iteration `clock` emits code 1 exactly when the counter is even, 2 when
      it is a multiple of 3, 0 of 5, 5 of 200, 6 of 250 and 3 of 600, each at
      most once, and no other code. */
  lemma TickEmits(clock: nat, code: nat)
    ensures code in TickCodes(clock) <==> ClockCode(code) && clock % Period(code) == 0
    ensures multiset(TickCodes(clock))[code] <= 1
  {
    if ClockCode(code) {
      TickCount(clock, code);
      DueIsMultiple(clock, Period(code));
    } else {
      TickOthers(clock, code);
    }
  }

  /** The first discipline need comes on iteration 200, the first cleaning
      need on iteration 250 and the first age event on iteration 600. */
  lemma FirstNeeds(n: nat)
    ensures 5 in UpdateCodes(n) <==> n >= 200
    ensures 6 in UpdateCodes(n) <==> n >= 250
    ensures 3 in UpdateCodes(n) <==> n >= 600
  {
    UpdateCounts(n);
  }

  /** A multiple of 1000 is a multiple of 2, 5, 200 and 250. */
  lemma MultipleOf1000(clock: nat)
    requires clock % 1000 == 0
    ensures Due(clock, 2) && Due(clock, 5) && Due(clock, 200) && Due(clock, 250)
  {
    var q := clock / 1000;
    DivUnique(clock, 2, 500 * q, 0);
    DivUnique(clock, 5, 200 * q, 0);
    DivUnique(clock, 200, 5 * q, 0);
    DivUnique(clock, 250, 4 * q, 0);
    DueIsMultiple(clock, 2);
    DueIsMultiple(clock, 5);
    DueIsMultiple(clock, 200);
    DueIsMultiple(clock, 250);
  }

  /** When both needs fall on one iteration (every 1000th), the discipline
      need is emitted right before the cleaning need, after the hunger and
      health decays. */
  lemma BothNeeds(clock: nat)
    requires clock % 1000 == 0
    ensures TickCodes(clock) == [1] + (if clock % 3 == 0 then [2] else []) + [0, 5, 6] + (if clock % 600 == 0 then [3] else [])
  {
    MultipleOf1000(clock);
    DueIsMultiple(clock, 3);
    DueIsMultiple(clock, 600);
  }

  /** Iteration 1000 emits hunger, health, discipline, cleaning, in that order. */
  lemma Tick1000()
    ensures TickCodes(1000) == [1, 0, 5, 6]
  {
    BothNeeds(1000);
  }

  // ---------------------------------------------------------------------
  // Sleeping: the nap

  /** The codes `Sleeping.run` emits on iteration `clock`: +1 happiness on
      every 10th, then +5 health on every 5th. */
  function NapTick(clock: nat): seq<nat> {
    Emit(Emit([], Due(clock, 10), 2), Due(clock, 5), 0)
  }

  /** A nap iteration emits the happiness step before the health step: on
      every 10th counter both, 2 then 0; on the other multiples of 5 only 0. */
  lemma NapTickOrder(clock: nat)
    ensures NapTick(clock) == if clock % 10 == 0 then [2, 0] else if clock % 5 == 0 then [0] else []
  {
    DueIsMultiple(clock, 10);
    DueIsMultiple(clock, 5);
    if clock % 10 == 0 {
      assert clock == 10 * (clock / 10);
      assert clock % 5 == 0;
    }
  }

  /** The codes of the nap's first `n` iterations. */
  function NapCodes(n: nat): seq<nat> {
    if n == 0 then [] else NapCodes(n - 1) + NapTick(n)
  }

  /** The nap's first `n` iterations emit `n / 5` health steps and `n / 10`
      happiness steps, and nothing else. */
  lemma {:induction false} NapCount(n: nat, code: nat)
    ensures multiset(NapCodes(n))[code] == (if code == 0 then n / 5 else if code == 2 then n / 10 else 0)
  {
    if n > 0 {
      NapCount(n - 1, code);
      NapStepCount(n, code);
      DueStep(n, 5);
      DueStep(n, 10);
    }
  }

  /** Iteration `n` of the nap adds one happiness step when due every 10th
      and one health step when due every 5th, and nothing else. */
  lemma NapStepCount(n: nat, code: nat)
    requires n > 0
    ensures multiset(NapCodes(n))[code] == multiset(NapCodes(n - 1))[code] +
      (if code == 2 && Due(n, 10) then 1 else 0) + (if code == 0 && Due(n, 5) then 1 else 0)
  {
    assert multiset(NapCodes(n)) == multiset(NapCodes(n - 1)) + multiset(NapTick(n));
    EmitCount([], Due(n, 10), 2, code);
    EmitCount(Emit([], Due(n, 10), 2), Due(n, 5), 0, code);
  }

  /** The nap's first `n` iterations emit `n / 5 + n / 10` codes. */
  lemma {:induction false} NapSize(n: nat)
    ensures |NapCodes(n)| == n / 5 + n / 10
  {
    if n > 0 {
      NapSize(n - 1);
      DueStep(n, 5);
      DueStep(n, 10);
    }
  }

  /** How many iterations a nap lasts. */
  const NapLength: nat := 50

  /** The codes of a whole run of `Sleeping.run`: the nap, then the wake-up. */
  function SleepCodes(): seq<nat> {
    NapCodes(NapLength) + [3]
  }

  /** A run with a nap of `n` iterations ends with its only wake-up, after
      `n / 5` health steps and `n / 10` happiness steps. */
  lemma NapThenWake(n: nat)
    ensures var s := NapCodes(n) + [3];
      |s| == n / 5 + n / 10 + 1 && s[|s| - 1] == 3 &&
      multiset(s)[0] == n / 5 && multiset(s)[2] == n / 10 && multiset(s)[3] == 1
  {
    var nap := NapCodes(n);
    assert multiset(nap + [3]) == multiset(nap) + multiset{3};
    NapSize(n);
    assert multiset(nap)[0] == n / 5 by {
      NapCount(n, 0);
    }
    assert multiset(nap)[2] == n / 10 by {
      NapCount(n, 2);
    }
    assert multiset(nap)[3] == 0 by {
      NapCount(n, 3);
    }
  }

  /** A run whose nap holds ten health steps and five happiness steps. */
  lemma WholeRunTotals(n: nat)
    requires n / 5 == 10 && n / 10 == 5
    ensures var s := NapCodes(n) + [3];
      |s| == 16 && s[15] == 3 && multiset(s)[0] == 10 && multiset(s)[2] == 5 && multiset(s)[3] == 1
  {
    NapThenWake(n);
  }

  /** A whole run is sixteen codes: ten health steps and five happiness
      steps, then the wake-up, which comes last and only once. */
  lemma SleepTotals()
    ensures |SleepCodes()| == 16 && SleepCodes()[15] == 3
    ensures multiset(SleepCodes())[0] == 10
    ensures multiset(SleepCodes())[2] == 5
    ensures multiset(SleepCodes())[3] == 1
  {
    WholeRunTotals(NapLength);
  }

  /** `Sleeping.run`: fifty iterations, counter 1 to 50, then one wake-up. */
  method SleepingRun() returns (codes: seq<nat>)
    ensures codes == SleepCodes()
  {
    codes := [];
    for clock := 1 to NapLength + 1
      invariant codes == NapCodes(clock - 1)
    {
      if Due(clock, 10) {
        codes := codes + [2];
      }
      if Due(clock, 5) {
        codes := codes + [0];
      }
    }
    codes := codes + [3];
  }

  // ---------------------------------------------------------------------
  // Sick: the sickness decay

  /** `k` sickness decay codes. */
  function SickCodes(k: nat): (r: seq<nat>)
    ensures |r| == k && forall i :: 0 <= i < k ==> r[i] == 1
  {
    seq(k, i => 1)
  }

  /** `Sick.run`: one decay per iteration while the medicine has not been
      pressed and the pet is sick, then one cure code. `stillSick[k]` is the
      value of that condition at the loop's `k`-th test; when the readings run
      out the loop is still running and the cure has not been emitted. */
  method SickRun(stillSick: seq<bool>) returns (codes: seq<nat>, iterations: nat)
    ensures iterations <= |stillSick|
    ensures forall k :: 0 <= k < iterations ==> stillSick[k]
    ensures iterations < |stillSick| ==> !stillSick[iterations] && codes == SickCodes(iterations) + [2]
    ensures iterations == |stillSick| ==> codes == SickCodes(iterations)
    ensures |stillSick| > 0 && !stillSick[0] ==> codes == [2]
  {
    codes := [];
    iterations := 0;
    while iterations < |stillSick| && stillSick[iterations]
      invariant iterations <= |stillSick|
      invariant forall k :: 0 <= k < iterations ==> stillSick[k]
      invariant codes == SickCodes(iterations)
    {
      codes := codes + [1];
      iterations := iterations + 1;
    }
    if iterations < |stillSick| {
      codes := codes + [2];
    }
  }
}
