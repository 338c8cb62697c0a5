/** The pet's life as a sequence of atomic steps: every code one of the three
    loops of module `Threads` emits, and every click on an enabled button of
    the window in front, is handed to its handler of module `PetState`, one
    at a time. The lemmas follow a pet through whole schedules: the nap, the
    sickness spell, minigame rounds, and what happens after death. */
module Lifecycle {
  import opened PetState
  import opened Threads

  /** The three loops whose signals reach the game window. */
  datatype Loop = UpdateLoop | SleepingLoop | SickLoop

  /** The six buttons of the game window that call a handler of the model. */
  datatype Button = Feed | Medicine | Sleep | Duck | Discipline | Save

  /** A signal from a loop, or a click on a button of one of the two windows. */
  datatype Event =
    | Signal(loop: Loop, code: nat)
    | Press(button: Button)
    | GameClick(direction: Direction)
    | GuessClick(guess: Direction)
    | ConfirmClick
    | CloseMinigame

  /** The events carrying `codes`, in order, from `loop`. */
  function Signals(loop: Loop, codes: seq<nat>): (es: seq<Event>)
    ensures |es| == |codes|
    ensures forall i :: 0 <= i < |codes| ==> es[i] == Signal(loop, codes[i])
  {
    if codes == [] then [] else [Signal(loop, codes[0])] + Signals(loop, codes[1..])
  }

  /** The handler each loop's signals are connected to. No signal brings a
      dead pet back, renames the pet or touches the minigame's flag, and only
      the update loop's signals age or kill the pet; the sleeping loop never
      touches hunger. */
  function Deliver(g: GameState, loop: Loop, code: nat): (r: GameState)
    ensures r.pet.name == g.pet.name && r.pet.playingWithPet == g.pet.playingWithPet
    ensures g.pet.dead ==> r.pet.dead
    ensures loop != UpdateLoop ==> r.pet.dead == g.pet.dead && r.pet.age == g.pet.age
    ensures loop == SleepingLoop ==> r.hunger == g.hunger && r.pet.hunger == g.pet.hunger
  {
    match loop
    case UpdateLoop => OnCountChanged(g, code)
    case SleepingLoop => OnSleep(g, code)
    case SickLoop => OnSick(g, code)
  }

  function Enabled(c: Controls, b: Button): bool {
    match b
    case Feed => c.feed
    case Medicine => c.medicine
    case Sleep => c.sleep
    case Duck => c.duck
    case Discipline => c.discipline
    case Save => c.save
  }

  /** The handler each button is connected to: feed is a +10 hunger update,
      medicine the cure of `onSick`. No button kills, revives, ages or renames
      the pet; only feed and medicine move the bars; only sleep turns the
      lights; save changes nothing but the status line. */
  function Pressed(g: GameState, b: Button): (r: GameState)
    ensures r.pet.name == g.pet.name && r.pet.dead == g.pet.dead && r.pet.age == g.pet.age
    ensures r.pet.playingWithPet == g.pet.playingWithPet
    ensures b == Feed ==> r.hunger == Capped(g.hunger, 10) && r.health == g.health && r.happiness == g.happiness
    ensures b != Feed && b != Medicine ==> r.health == g.health && r.hunger == g.hunger && r.happiness == g.happiness
    ensures (b == Sleep) == (r.pet.sleeping != g.pet.sleeping)
    ensures b == Save ==> r == g.(status := SavedMessage)
  {
    match b
    case Feed => UpdateStats(g, Hunger, 10)
    case Medicine => OnSick(g, 2)
    case Sleep => ChangeLights(g)
    case Duck => CleanTamagotchi(g)
    case Discipline => DisciplineTamagotchi(g)
    case Save => SaveCurrentGame(g)
  }

  /** One step. A loop's signal goes to its handler. A click on the game
      window does something only while that window is in front (the minigame
      hides it) and the button is enabled; a click on the minigame only while
      it is shown and the button is enabled. The game button draws the
      minigame's direction at random: here it is part of the event. */
  function Step(ss: Session, e: Event): (r: Session)
    ensures e.Signal? ==> r.mini == ss.mini && r.game == Deliver(ss.game, e.loop, e.code)
    ensures e.Press? && (ss.mini.shown || !Enabled(ss.game.controls, e.button)) ==> r == ss
    ensures e.GameClick? && (ss.mini.shown || !ss.game.controls.game) ==> r == ss
    ensures (e.GuessClick? || e.ConfirmClick? || e.CloseMinigame?) && !ss.mini.shown ==> r == ss
    ensures e.Press? ==> r.mini == ss.mini
  {
    match e
    case Signal(loop, code) => ss.(game := Deliver(ss.game, loop, code))
    case Press(b) =>
      if !ss.mini.shown && Enabled(ss.game.controls, b) then ss.(game := Pressed(ss.game, b)) else ss
    case GameClick(d) => if !ss.mini.shown && ss.game.controls.game then Layout(ss, d) else ss
    case GuessClick(d) =>
      if ss.mini.shown && (if d == 0 then ss.mini.guessLeft else ss.mini.guessRight) then Guessed(ss, d) else ss
    case ConfirmClick => if ss.mini.shown && ss.mini.confirm then Confirmed(ss) else ss
    case CloseMinigame => if ss.mini.shown then CloseEvent(ss) else ss
  }

  /** The events `es`, one after another. */
  function Run(ss: Session, es: seq<Event>): Session
    decreases |es|
  {
    if es == [] then ss else Run(Step(ss, es[0]), es[1..])
  }

  lemma RunCons(ss: Session, e: Event, rest: seq<Event>)
    ensures Run(ss, [e] + rest) == Run(Step(ss, e), rest)
  {
    assert ([e] + rest)[0] == e && ([e] + rest)[1..] == rest;
  }

  lemma RunOne(ss: Session, e: Event)
    ensures Run(ss, [e]) == Step(ss, e)
  {
    RunCons(ss, e, []);
    assert [e] + [] == [e];
  }

  lemma {:induction false} RunAppend(ss: Session, a: seq<Event>, b: seq<Event>)
    ensures Run(ss, a + b) == Run(Run(ss, a), b)
    decreases |a|
  {
    if a != [] {
      assert (a + b)[0] == a[0] && (a + b)[1..] == a[1..] + b;
      RunAppend(Step(ss, a[0]), a[1..], b);
    } else {
      assert a + b == b;
    }
  }

  lemma {:induction false} SignalsAppend(loop: Loop, a: seq<nat>, b: seq<nat>)
    ensures Signals(loop, a + b) == Signals(loop, a) + Signals(loop, b)
  {
    var l, r := Signals(loop, a + b), Signals(loop, a) + Signals(loop, b);
    assert |l| == |r|;
    forall i | 0 <= i < |l|
      ensures l[i] == r[i]
    {
      if i < |a| {
        assert (a + b)[i] == a[i];
      } else {
        assert (a + b)[i] == b[i - |a|];
      }
    }
  }

  // ---------------------------------------------------------------------
  // The invariant of the two windows

  /** What holds of the two windows at every step: no bar above 100, the
      pet's stats equal to the bars, the minigame window shown exactly while
      the pet plays, and a dead pet with every button disabled and no
      minigame open. The last part holds because `Deliver` hands the clock's
      and the nap's codes to the corrected `OnCountChanged` and `OnSleep`;
      the handlers as written re-enable buttons of a dead pet. */
  predicate Inv(ss: Session) {
    Bounded(ss.game) && Synced(ss.game) &&
    (ss.game.pet.playingWithPet <==> ss.mini.shown) &&
    (ss.game.pet.dead ==> NoControls(ss.game.controls) && !ss.mini.shown)
  }

  /** Opening the game window on a living pet whose stats are at most 100,
      outside the minigame, starts in a state of the invariant. */
  lemma InitStatsEstablishesInv(s: GameState, m: MiniGame)
    requires s.pet.health <= 100 && s.pet.hunger <= 100 && s.pet.happiness <= 100
    requires !s.pet.playingWithPet && !s.pet.dead && !m.shown
    ensures Inv(Session(InitStats(s), m))
  {
  }

  /** A window whose bars are at most 100 and equal to the pet's stats. */
  predicate Sound(g: GameState) {
    Bounded(g) && Synced(g)
  }

  /** What a dead pet keeps from one step to the next. */
  predicate Still(g: GameState, r: GameState) {
    r.pet.dead && r.pet.age == g.pet.age &&
    r.pet.needsDiscipline == g.pet.needsDiscipline && r.pet.needsCleaning == g.pet.needsCleaning &&
    r.controls == g.controls && r.status == g.status
  }

  lemma UpdateStatsSound(g: GameState, st: Stat, amount: int)
    requires Sound(g)
    ensures Sound(UpdateStats(g, st, amount))
  {
  }

  lemma DecaySound(g: GameState, code: nat)
    requires Sound(g) && code < 3
    ensures Sound(Decay(g, code))
  {
    UpdateStatsSound(g, StatOf(code), -1);
  }

  lemma CureSound(g: GameState)
    requires Sound(g)
    ensures Sound(Cure(g))
  {
    UpdateStatsSound(Prescribe(g), Hunger, 20);
    UpdateStatsSound(UpdateStats(Prescribe(g), Hunger, 20), Happiness, 20);
  }

  /** The update loop's signals keep the window sound and the play flag as
      it is; a pet dies only outside the minigame and loses every button,
      and a dead pet is left alone. */
  lemma ClockKeeps(g: GameState, code: nat)
    requires Sound(g)
    ensures var r := OnCountChanged(g, code);
      Sound(r) && r.pet.playingWithPet == g.pet.playingWithPet &&
      (g.pet.dead ==> r == g) &&
      (r.pet.dead && !g.pet.dead ==> NoControls(r.controls) && !g.pet.playingWithPet)
  {
    if Ticking(g) && code < 3 {
      DecaySound(g, code);
    }
  }

  /** The sleeping loop's signals keep the window sound, never kill, and,
      with the corrected wake-up, leave a dead pet's buttons disabled. */
  lemma NapKeeps(g: GameState, code: nat)
    requires Sound(g)
    ensures var r := OnSleep(g, code);
      Sound(r) && r.pet.playingWithPet == g.pet.playingWithPet && r.pet.dead == g.pet.dead &&
      (g.pet.dead && NoControls(g.controls) ==> Still(g, r))
  {
    if code == 0 {
      UpdateStatsSound(g, Health, 5);
    } else if code == 2 {
      UpdateStatsSound(g, Happiness, 1);
    }
  }

  /** The sickness loop's signals keep the window sound, never kill, and
      leave a dead pet's buttons, status, age and needs alone. A 1 still
      lowers a dead pet's health and happiness. */
  lemma SickKeeps(g: GameState, code: nat)
    requires Sound(g)
    ensures var r := OnSick(g, code);
      Sound(r) && r.pet.playingWithPet == g.pet.playingWithPet && r.pet.dead == g.pet.dead &&
      (g.pet.dead ==> Still(g, r))
  {
    if code == 1 {
      UpdateStatsSound(g, Health, -5);
      UpdateStatsSound(UpdateStats(g, Health, -5), Happiness, -3);
    } else if code == 2 && !g.pet.dead {
      CureSound(g);
    }
  }

  lemma DeliverKeeps(g: GameState, loop: Loop, code: nat)
    requires Sound(g)
    ensures var r := Deliver(g, loop, code);
      Sound(r) && r.pet.playingWithPet == g.pet.playingWithPet &&
      (g.pet.dead && NoControls(g.controls) ==> Still(g, r)) &&
      (r.pet.dead && !g.pet.dead ==> NoControls(r.controls) && !g.pet.playingWithPet)
  {
    match loop
    case UpdateLoop => ClockKeeps(g, code);
    case SleepingLoop => NapKeeps(g, code);
    case SickLoop => SickKeeps(g, code);
  }

  /** The game window's buttons keep the window sound and never kill or
      start the minigame. */
  lemma PressedKeeps(g: GameState, b: Button)
    requires Sound(g)
    ensures var r := Pressed(g, b);
      Sound(r) && r.pet.playingWithPet == g.pet.playingWithPet && r.pet.dead == g.pet.dead
  {
    match b
    case Feed => UpdateStatsSound(g, Hunger, 10);
    case Medicine => SickKeeps(g, 2);
    case _ =>
  }

  /** The minigame's clicks keep the invariant: a round opens only from the
      game button, which a dead pet does not have, and the play flag follows
      the window. */
  lemma MinigameKeepsInv(ss: Session, e: Event)
    requires Inv(ss)
    requires e.GameClick? || e.GuessClick? || e.ConfirmClick? || e.CloseMinigame?
    ensures Inv(Step(ss, e))
  {
    if e.ConfirmClick? && ss.mini.wonGame {
      UpdateStatsSound(ss.game, Happiness, 50);
    }
  }

  /** Every step keeps the invariant. */
  lemma StepKeepsInv(ss: Session, e: Event)
    requires Inv(ss)
    ensures Inv(Step(ss, e))
  {
    match e
    case Signal(loop, code) => DeliverKeeps(ss.game, loop, code);
    case Press(b) => PressedKeeps(ss.game, b);
    case _ => MinigameKeepsInv(ss, e);
  }

  /** Every run of events keeps the invariant: in particular no bar ever
      exceeds 100, and the minigame is open exactly while the pet plays;
      with the corrected handlers, a dead pet has no button enabled. */
  lemma {:induction false} RunKeepsInv(ss: Session, es: seq<Event>)
    requires Inv(ss)
    ensures Inv(Run(ss, es))
    decreases |es|
  {
    if es != [] {
      StepKeepsInv(ss, es[0]);
      RunKeepsInv(Step(ss, es[0]), es[1..]);
    }
  }

  // ---------------------------------------------------------------------
  // Death is final

  lemma DeadStep(ss: Session, e: Event)
    requires Inv(ss) && ss.game.pet.dead
    ensures Still(ss.game, Step(ss, e).game) && !Step(ss, e).mini.shown && Inv(Step(ss, e))
  {
    StepKeepsInv(ss, e);
    match e
    case Signal(loop, code) => DeliverKeeps(ss.game, loop, code);
    case _ =>
  }

  /** Once the pet has died, nothing any loop or click does revives it,
      enables a button, changes the status, ages it, raises a need or opens
      the minigame, given the corrected clock and wake-up handlers that
      `Deliver` uses. Its bars may still move: the sickness decay and the
      nap's steps do not test `dead`. */
  lemma {:induction false} DeadIsFinal(ss: Session, es: seq<Event>)
    requires Inv(ss) && ss.game.pet.dead
    ensures var r := Run(ss, es); Still(ss.game, r.game) && !r.mini.shown
    decreases |es|
  {
    if es != [] {
      DeadStep(ss, es[0]);
      DeadIsFinal(Step(ss, es[0]), es[1..]);
    }
  }

  // ---------------------------------------------------------------------
  // The minigame stops the clock

  /** While the pet plays the minigame, any run of the update loop's signals
      changes nothing at all. */
  lemma {:induction false} PlayingFreezesClock(ss: Session, codes: seq<nat>)
    requires ss.game.pet.playingWithPet
    ensures Run(ss, Signals(UpdateLoop, codes)) == ss
    decreases |codes|
  {
    if codes != [] {
      assert Step(ss, Signal(UpdateLoop, codes[0])) == ss;
      PlayingFreezesClock(ss, codes[1..]);
    }
  }

  // ---------------------------------------------------------------------
  // Repeated capped adds

  /** `k` capped adds of `amount` in a row. */
  function CappedTimes(v: int, amount: int, k: nat): int {
    if k == 0 then v else Capped(CappedTimes(v, amount, k - 1), amount)
  }

  lemma {:induction false} CappedTimesShift(v: int, amount: int, k: nat)
    ensures CappedTimes(Capped(v, amount), amount, k) == CappedTimes(v, amount, k + 1)
  {
    if k > 0 {
      CappedTimesShift(v, amount, k - 1);
    }
  }

  /** Adding a non-negative amount `k` times to a value at most 100 gives the
      sum, or 100 once the sum reaches 100. */
  lemma {:induction false} CappedTimesUp(v: int, amount: int, k: nat)
    requires v <= 100 && amount >= 0
    ensures CappedTimes(v, amount, k) == if v + k * amount >= 100 then 100 else v + k * amount
  {
    if k > 0 {
      CappedTimesUp(v, amount, k - 1);
      assert v + k * amount == v + (k - 1) * amount + amount;
    }
  }

  /** Adding a negative amount `k` times to a value at most 100 is never
      capped: the value goes down by `k` times the amount. */
  lemma {:induction false} CappedTimesDown(v: int, amount: int, k: nat)
    requires v <= 100 && amount <= 0
    ensures CappedTimes(v, amount, k) == v + k * amount
  {
    if k > 0 {
      CappedTimesDown(v, amount, k - 1);
      assert v + k * amount == v + (k - 1) * amount + amount;
    }
  }

  // ---------------------------------------------------------------------
  // A minigame round

  /** A round of the minigame opened from the game window: the pet turns to
      `d`, the player guesses `guess` and confirms. Happiness gains a capped
      50 exactly when the guess is right; either way the main buttons come
      back with medicine disabled, and the window closes. */
  lemma Round(ss: Session, d: Direction, guess: Direction)
    requires !ss.mini.shown && ss.game.controls.game
    ensures var r := Run(ss, [GameClick(d), GuessClick(guess), ConfirmClick]);
      r.game.happiness == (if guess == d then Capped(ss.game.happiness, 50) else ss.game.happiness) &&
      r.game.health == ss.game.health && r.game.hunger == ss.game.hunger &&
      r.game.controls == SetMain(ss.game.controls, true).(medicine := false) &&
      !r.game.pet.playingWithPet && !r.mini.shown
  {
    var s1 := Layout(ss, d);
    var s2 := Guessed(s1, guess);
    var s3 := Confirmed(s2);
    assert Step(ss, GameClick(d)) == s1;
    assert Step(s1, GuessClick(guess)) == s2;
    assert Step(s2, ConfirmClick) == s3;
    RunCons(ss, GameClick(d), [GuessClick(guess), ConfirmClick]);
    RunCons(s1, GuessClick(guess), [ConfirmClick]);
    RunOne(s2, ConfirmClick);
    assert [GameClick(d), GuessClick(guess), ConfirmClick] == [GameClick(d)] + [GuessClick(guess), ConfirmClick];
    assert [GuessClick(guess), ConfirmClick] == [GuessClick(guess)] + [ConfirmClick];
  }

  /** Two won rounds add two capped 50s to happiness: from 80 the first
      round reaches 100 and the second keeps it there. */
  lemma TwoWonRounds(ss: Session, d1: Direction, d2: Direction)
    requires !ss.mini.shown && ss.game.controls.game && ss.game.happiness <= 100
    ensures var r := Run(ss, [GameClick(d1), GuessClick(d1), ConfirmClick, GameClick(d2), GuessClick(d2), ConfirmClick]);
      r.game.happiness == CappedTimes(ss.game.happiness, 50, 2) &&
      (ss.game.happiness == 80 ==> r.game.happiness == 100)
  {
    var first := [GameClick(d1), GuessClick(d1), ConfirmClick];
    var second := [GameClick(d2), GuessClick(d2), ConfirmClick];
    assert first + second == [GameClick(d1), GuessClick(d1), ConfirmClick, GameClick(d2), GuessClick(d2), ConfirmClick];
    RunAppend(ss, first, second);
    Round(ss, d1, d1);
    Round(Run(ss, first), d2, d2);
    CappedTimesUp(ss.game.happiness, 50, 2);
  }

  // ---------------------------------------------------------------------
  // A nap

  /** The window after `h0` capped +5 health steps and `j0` capped +1
      happiness steps. */
  function Rested(g: GameState, h0: nat, j0: nat): GameState {
    var h, j := CappedTimes(g.health, 5, h0), CappedTimes(g.happiness, 1, j0);
    g.(health := h, happiness := j, pet := g.pet.(health := h, happiness := j))
  }

  lemma RestedHealth(g: GameState, h0: nat, j0: nat)
    ensures Rested(UpdateStats(g, Health, 5), h0, j0) == Rested(g, h0 + 1, j0)
  {
    CappedTimesShift(g.health, 5, h0);
  }

  lemma RestedHappiness(g: GameState, h0: nat, j0: nat)
    ensures Rested(UpdateStats(g, Happiness, 1), h0, j0) == Rested(g, h0, j0 + 1)
  {
    CappedTimesShift(g.happiness, 1, j0);
  }

  /** The nap's signals apply one capped +5 health per 0 and one capped +1
      happiness per 2, in any order, and change nothing else. */
  lemma {:induction false} NapSteps(ss: Session, codes: seq<nat>)
    requires Sound(ss.game)
    requires forall i :: 0 <= i < |codes| ==> codes[i] == 0 || codes[i] == 2
    ensures Run(ss, Signals(SleepingLoop, codes)) ==
      ss.(game := Rested(ss.game, multiset(codes)[0], multiset(codes)[2]))
    decreases |codes|
  {
    if codes != [] {
      var c, rest := codes[0], codes[1..];
      var s1 := Step(ss, Signal(SleepingLoop, c));
      NapCodesCons(codes);
      RunCons(ss, Signal(SleepingLoop, c), Signals(SleepingLoop, rest));
      NapSignal(ss, c);
      NapSteps(s1, rest);
      RestedStep(ss.game, c, multiset(rest)[0], multiset(rest)[2]);
    }
  }

  /** The first code of a nap, split off its signals and its counts. */
  lemma NapCodesCons(codes: seq<nat>)
    requires codes != []
    ensures Signals(SleepingLoop, codes) == [Signal(SleepingLoop, codes[0])] + Signals(SleepingLoop, codes[1..])
    ensures multiset(codes)[0] == multiset(codes[1..])[0] + (if codes[0] == 0 then 1 else 0)
    ensures multiset(codes)[2] == multiset(codes[1..])[2] + (if codes[0] == 2 then 1 else 0)
  {
    assert codes == [codes[0]] + codes[1..];
    assert multiset(codes) == multiset{codes[0]} + multiset(codes[1..]);
  }

  /** One nap step before the rest is one more step counted in the rest. */
  lemma RestedStep(g: GameState, c: nat, h0: nat, j0: nat)
    requires c == 0 || c == 2
    ensures Rested(if c == 0 then UpdateStats(g, Health, 5) else UpdateStats(g, Happiness, 1), h0, j0) ==
      Rested(g, h0 + (if c == 0 then 1 else 0), j0 + (if c == 2 then 1 else 0))
  {
    if c == 0 {
      RestedHealth(g, h0, j0);
    } else {
      RestedHappiness(g, h0, j0);
    }
  }

  /** One nap signal: 0 is a capped +5 health, 2 a capped +1 happiness. */
  lemma NapSignal(ss: Session, code: nat)
    requires Sound(ss.game) && (code == 0 || code == 2)
    ensures var s1 := Step(ss, Signal(SleepingLoop, code));
      Sound(s1.game) &&
      s1 == ss.(game := if code == 0 then UpdateStats(ss.game, Health, 5) else UpdateStats(ss.game, Happiness, 1))
  {
    NapKeeps(ss.game, code);
  }

  /** The nap loop emits only health and happiness steps. */
  lemma NapCodesSteps(n: nat)
    ensures forall i :: 0 <= i < |NapCodes(n)| ==> NapCodes(n)[i] == 0 || NapCodes(n)[i] == 2
  {
    forall i | 0 <= i < |NapCodes(n)|
      ensures NapCodes(n)[i] == 0 || NapCodes(n)[i] == 2
    {
      var c := NapCodes(n)[i];
      assert c in multiset(NapCodes(n));
      NapCount(n, c);
    }
  }

  /** The whole nap loop, wake-up excluded: ten health steps and five
      happiness steps. */
  lemma WholeNap(ss: Session)
    requires Sound(ss.game)
    ensures Run(ss, Signals(SleepingLoop, NapCodes(NapLength))) == ss.(game := Rested(ss.game, 10, 5))
  {
    NapCodesSteps(NapLength);
    NapSteps(ss, NapCodes(NapLength));
    NapCount(NapLength, 0);
    NapCount(NapLength, 2);
  }

  /** The wake-up that ends the nap of a living pet: awake again, with
      sleep, game, feed and medicine enabled, nothing else changed. */
  lemma WakeUp(ss: Session)
    requires ss.game.pet.sleeping && !ss.game.pet.dead
    ensures Run(ss, [Signal(SleepingLoop, 3)]) ==
      ss.(game := ss.game.(pet := ss.game.pet.(sleeping := false), controls := SetMain(ss.game.controls, true)))
  {
    RunOne(ss, Signal(SleepingLoop, 3));
  }

  /** A whole run of the sleeping loop on a living, sleeping pet: the ten
      health steps and five happiness steps, then the wake-up. */
  lemma SleepRun(ss: Session)
    requires Sound(ss.game) && ss.game.pet.sleeping && !ss.game.pet.dead
    ensures var g := Rested(ss.game, 10, 5);
      Run(ss, Signals(SleepingLoop, SleepCodes())) ==
      ss.(game := g.(pet := g.pet.(sleeping := false), controls := SetMain(g.controls, true)))
  {
    var nap := Signals(SleepingLoop, NapCodes(NapLength));
    SignalsAppend(SleepingLoop, NapCodes(NapLength), [3]);
    assert Signals(SleepingLoop, SleepCodes()) == nap + [Signal(SleepingLoop, 3)];
    RunAppend(ss, nap, [Signal(SleepingLoop, 3)]);
    WholeNap(ss);
    WakeUp(ss.(game := Rested(ss.game, 10, 5)));
  }

  /** The sleep button, pressed outside the minigame while it is enabled,
      runs `change_lights` before whatever follows. */
  lemma SleepPress(ss: Session, rest: seq<Event>)
    requires !ss.mini.shown && ss.game.controls.sleep
    ensures Run(ss, [Press(Sleep)] + rest) == Run(ss.(game := ChangeLights(ss.game)), rest)
  {
    assert Step(ss, Press(Sleep)) == ss.(game := ChangeLights(ss.game));
    RunCons(ss, Press(Sleep), rest);
  }

  /** An uninterrupted nap of a living pet that is awake, outside the
      minigame: the sleep button, then a whole run of the sleeping loop. The
      pet ends awake, with ten capped +5 health steps (+50, capped at 100),
      five +1 happiness steps (+5, capped), sleep, game, feed and medicine
      enabled, and hunger and status untouched. */
  lemma UninterruptedNap(ss: Session)
    requires Sound(ss.game) && !ss.mini.shown && ss.game.controls.sleep && !ss.game.pet.sleeping && !ss.game.pet.dead
    ensures var r, g := Run(ss, [Press(Sleep)] + Signals(SleepingLoop, SleepCodes())), ss.game;
      r.game.health == (if g.health + 50 >= 100 then 100 else g.health + 50) &&
      r.game.happiness == (if g.happiness + 5 >= 100 then 100 else g.happiness + 5) &&
      r.game.hunger == g.hunger && r.game.pet.hunger == g.pet.hunger &&
      !r.game.pet.sleeping && !r.game.pet.dead &&
      r.game.controls == SetMain(g.controls, true) && r.game.status == g.status
  {
    NapFromPress(ss);
    NapOutcome(ss.game);
  }

  /** The sleep button followed by the whole sleeping loop, as one state. */
  lemma NapFromPress(ss: Session)
    requires Sound(ss.game) && !ss.mini.shown && ss.game.controls.sleep && !ss.game.pet.sleeping && !ss.game.pet.dead
    ensures var w := Rested(ChangeLights(ss.game), 10, 5);
      Run(ss, [Press(Sleep)] + Signals(SleepingLoop, SleepCodes())) ==
      ss.(game := w.(pet := w.pet.(sleeping := false), controls := SetMain(w.controls, true)))
  {
    SleepPress(ss, Signals(SleepingLoop, SleepCodes()));
    SleepRun(ss.(game := ChangeLights(ss.game)));
  }

  /** The game state a nap leaves behind, without the events that lead to
      it: lights off, ten +5 health and five +1 happiness steps, then the
      wake-up that enables the main buttons again. */
  lemma NapOutcome(g: GameState)
    requires Sound(g) && !g.pet.sleeping
    ensures var w := Rested(ChangeLights(g), 10, 5);
      var v := w.(pet := w.pet.(sleeping := false), controls := SetMain(w.controls, true));
      v.health == (if g.health + 50 >= 100 then 100 else g.health + 50) &&
      v.happiness == (if g.happiness + 5 >= 100 then 100 else g.happiness + 5) &&
      v.hunger == g.hunger && v.pet.hunger == g.pet.hunger &&
      !v.pet.sleeping && v.pet.dead == g.pet.dead &&
      v.controls == SetMain(g.controls, true) && v.status == g.status
  {
    CappedTimesUp(g.health, 5, 10);
    CappedTimesUp(g.happiness, 1, 5);
  }

  // ---------------------------------------------------------------------
  // A sickness spell

  /** The sickness loop's decays: each one is -5 health and -3 happiness,
      never capped from a bounded state, and nothing else; in particular no
      decay kills the pet, however low its health goes. */
  lemma {:induction false} SickSteps(ss: Session, k: nat)
    requires Bounded(ss.game)
    ensures var r := Run(ss, Signals(SickLoop, SickCodes(k)));
      r.game.health == ss.game.health - 5 * k && r.game.happiness == ss.game.happiness - 3 * k &&
      r.game.hunger == ss.game.hunger && SameLife(r.game.pet, ss.game.pet) &&
      r.game.controls == ss.game.controls && r.game.status == ss.game.status && r.mini == ss.mini
    ensures var r := Run(ss, Signals(SickLoop, SickCodes(k)));
      k > 0 ==> r.game.pet == ss.game.pet.(health := r.game.health, happiness := r.game.happiness)
    decreases k
  {
    if k > 0 {
      assert SickCodes(k) == [1] + SickCodes(k - 1);
      assert Signals(SickLoop, SickCodes(k)) == [Signal(SickLoop, 1)] + Signals(SickLoop, SickCodes(k - 1));
      var s1 := Step(ss, Signal(SickLoop, 1));
      RunCons(ss, Signal(SickLoop, 1), Signals(SickLoop, SickCodes(k - 1)));
      assert s1.game.health == ss.game.health - 5 && s1.game.happiness == ss.game.happiness - 3;
      SickSteps(s1, k - 1);
    }
  }

  /** A sickness spell of `k` decays ended by the cure the loop emits when it
      stops: health down by 5 per decay, happiness down by 3 per decay and
      then a capped +20, hunger a capped +20; the pet is no longer sick, is
      still alive, sleep and game are enabled again and the status is
      cleared. */
  lemma SickSpell(ss: Session, k: nat)
    requires Bounded(ss.game) && !ss.game.pet.dead
    ensures var r, g := Run(ss, Signals(SickLoop, SickCodes(k) + [2])), ss.game;
      r.game.health == g.health - 5 * k &&
      r.game.happiness == Capped(g.happiness - 3 * k, 20) &&
      r.game.hunger == Capped(g.hunger, 20) &&
      !r.game.pet.sick && !r.game.pet.dead && !r.game.pet.medicinePressed &&
      r.game.controls == g.controls.(sleep := true, game := true) && r.game.status == ""
  {
    var decays := Signals(SickLoop, SickCodes(k));
    SignalsAppend(SickLoop, SickCodes(k), [2]);
    assert Signals(SickLoop, [2]) == [Signal(SickLoop, 2)];
    RunAppend(ss, decays, [Signal(SickLoop, 2)]);
    SickSteps(ss, k);
    RunOne(Run(ss, decays), Signal(SickLoop, 2));
  }

  /** Pressing medicine cures at once, and the sickness loop, which then
      stops, emits its own cure as well: hunger gets two capped +20s. */
  lemma MedicineCuresTwice(ss: Session)
    requires !ss.mini.shown && ss.game.controls.medicine && !ss.game.pet.dead
    ensures Run(ss, [Press(Medicine), Signal(SickLoop, 2)]).game.hunger == CappedTimes(ss.game.hunger, 20, 2)
  {
    var s1 := ss.(game := OnSick(ss.game, 2));
    assert Step(ss, Press(Medicine)) == s1;
    RunCons(ss, Press(Medicine), [Signal(SickLoop, 2)]);
    RunOne(s1, Signal(SickLoop, 2));
    assert [Press(Medicine), Signal(SickLoop, 2)] == [Press(Medicine)] + [Signal(SickLoop, 2)];
    assert CappedTimes(ss.game.hunger, 20, 1) == Capped(ss.game.hunger, 20);
  }

  // ---------------------------------------------------------------------
  // The handlers as written

  /** The update loop's codes `codes` delivered to `onCountChanged` as
      written. */
  function ClockAsWritten(s: GameState, codes: seq<nat>): GameState
    decreases |codes|
  {
    if codes == [] then s else ClockAsWritten(OnCountChangedAsWritten(s, codes[0]), codes[1..])
  }

  /** A pet at 1 health, awake, well and fed. */
  function Frail(): GameState {
    var p := Pet("Tama", 1, 50, 50, "basic", 1, false, false, false, false, false, false, false);
    GameState(p, 1, 50, 50, Controls(true, true, false, true, false, false, true), "")
  }

  /** On iteration 200 the update loop emits a hunger decay, a health decay
      and the discipline need. As written, the health decay kills the frail
      pet and the discipline need that follows enables the discipline button
      and replaces the death notice. With the corrected handler the pet stays
      dead with every button disabled and the death notice shown. */
  lemma DeathThenDisciplineAsWritten()
    ensures TickCodes(200) == [1, 0, 5]
    ensures var r := ClockAsWritten(Frail(), TickCodes(200));
      r.pet.dead && r.controls.discipline && r.status == NeedsDisciplining("Tama")
    ensures var r := Run(Session(Frail(), MiniGame(0, false, false, false, false, "", false)),
                         Signals(UpdateLoop, TickCodes(200))).game;
      r.pet.dead && NoControls(r.controls) && r.status == HasDied("Tama")
  {
    assert TickCodes(200) == [1, 0, 5] by {
      DueIsMultiple(200, 2);
      DueIsMultiple(200, 3);
      DueIsMultiple(200, 5);
      DueIsMultiple(200, 200);
      DueIsMultiple(200, 250);
      DueIsMultiple(200, 600);
    }
    var s1 := OnCountChangedAsWritten(Frail(), 1);
    var s2 := OnCountChangedAsWritten(s1, 0);
    assert s2.pet.dead;
    var ss := Session(Frail(), MiniGame(0, false, false, false, false, "", false));
    var t1 := Step(ss, Signal(UpdateLoop, 1));
    var t2 := Step(t1, Signal(UpdateLoop, 0));
    assert t2.game.pet.dead && NoControls(t2.game.controls) && t2.game.status == HasDied("Tama");
    assert Signals(UpdateLoop, [1, 0, 5]) == [Signal(UpdateLoop, 1), Signal(UpdateLoop, 0), Signal(UpdateLoop, 5)];
  }

  /** As written, a dead pet that is awake and still has health goes on
      decaying: a hunger decay to 0 makes it sick again, enables medicine
      and replaces the death notice with "needs medicine". The corrected
      handler leaves it as it is. */
  lemma DeadPetSickensAsWritten(s: GameState)
    requires s.pet.dead && !s.pet.playingWithPet && !s.pet.sleeping && s.health > 0 && s.hunger <= 1
    ensures var r := OnCountChangedAsWritten(s, 1);
      r.pet.dead && r.pet.sick && r.controls.medicine && r.status == NeedsMedicine(s.pet.name)
    ensures OnCountChanged(s, 1) == s
  {
  }

  /** A pet that dies during its nap, as written, wakes with sleep, game,
      feed and medicine enabled; the corrected wake-up keeps them disabled. */
  lemma DeadPetWakesAsWritten(s: GameState)
    requires s.pet.sleeping && !s.pet.dead && !s.pet.playingWithPet && s.health == 1
    ensures var d := OnCountChanged(s, 0);
      d.pet.dead && NoControls(d.controls) &&
      MainControls(OnSleepAsWritten(d, 3).controls, true) &&
      NoControls(OnSleep(d, 3).controls)
  {
  }
}
