/** The pet life-cycle state machine of the game window, on plain values.
    Every handler of `Game` and `HappinessGame` is a function from the state
    before the call to the state after it; the classes in module `Windows`
    are proved to perform exactly these transitions in place. Widgets are
    plain fields: a progress bar is an `int`, a button's enabled state a
    `bool`, a label a `string`. */
module PetState {
  import opened Text

  /** The three stats, in the index order the handlers use:
      0 health, 1 hunger, 2 happiness. */
  datatype Stat = Health | Hunger | Happiness

  function StatOf(code: nat): (st: Stat)
    requires code < 3
    ensures code == 0 <==> st == Health
    ensures code == 1 <==> st == Hunger
  {
    if code == 0 then Health else if code == 1 then Hunger else Happiness
  }

  /** The tamagotchi record shared by the windows and the threads. */
  datatype Pet = Pet(
    name: string,
    health: int,
    hunger: int,
    happiness: int,
    styleName: string,
    age: int,
    sick: bool,
    sleeping: bool,
    dead: bool,
    needsDiscipline: bool,
    needsCleaning: bool,
    playingWithPet: bool,
    medicinePressed: bool)

  /** Which buttons of the game window are enabled (the main-menu button is
      never disabled and is not listed). */
  datatype Controls = Controls(
    feed: bool,
    game: bool,
    medicine: bool,
    sleep: bool,
    discipline: bool,
    duck: bool,
    save: bool)

  /** The game window: the pet, the three progress bars, the buttons and the
      status label. */
  datatype GameState = GameState(
    pet: Pet,
    health: int,
    hunger: int,
    happiness: int,
    controls: Controls,
    status: string)

  /** The direction the minigame's pet turns to, and a guess: 0 left, 1 right. */
  type Direction = d: int | 0 <= d <= 1

  /** The minigame window: the chosen direction, whether the guess was right,
      its three buttons, the result label and whether the window is open. */
  datatype MiniGame = MiniGame(
    direction: Direction,
    wonGame: bool,
    guessLeft: bool,
    guessRight: bool,
    confirm: bool,
    results: string,
    shown: bool)

  /** Both windows together: the minigame handlers reach into the game window. */
  datatype Session = Session(game: GameState, mini: MiniGame)

  // ---------------------------------------------------------------------
  // Views of the state

  function Bar(s: GameState, st: Stat): int {
    match st
    case Health => s.health
    case Hunger => s.hunger
    case Happiness => s.happiness
  }

  function PetStat(p: Pet, st: Stat): int {
    match st
    case Health => p.health
    case Hunger => p.hunger
    case Happiness => p.happiness
  }

  /** No progress bar is above its maximum of 100. */
  predicate Bounded(s: GameState) {
    s.health <= 100 && s.hunger <= 100 && s.happiness <= 100
  }

  /** The pet's copy of each stat equals its progress bar. */
  predicate Synced(s: GameState) {
    s.pet.health == s.health && s.pet.hunger == s.hunger && s.pet.happiness == s.happiness
  }

  /** `p` and `q` agree on everything but the three stats. */
  predicate SameLife(p: Pet, q: Pet) {
    p.(health := q.health, hunger := q.hunger, happiness := q.happiness) == q
  }

  /** Sleep, game, feed and medicine, the buttons `disable_enable_buttons`
      switches together, are all `on`. */
  predicate MainControls(c: Controls, on: bool) {
    c.feed == on && c.game == on && c.medicine == on && c.sleep == on
  }

  /** Every button of the game window but the main menu is disabled. */
  predicate NoControls(c: Controls) {
    MainControls(c, false) && !c.discipline && !c.duck && !c.save
  }

  // ---------------------------------------------------------------------
  // Status texts

  function NeedsMedicine(name: string): string { Strip(name) + " needs medicine." }
  function NeedsDisciplining(name: string): string { Strip(name) + " needs Disciplining" }
  function NeedsCleaning(name: string): string { Strip(name) + " needs Cleaning" }
  function HasDied(name: string): string { Strip(name) + " has died" }
  const SavedMessage: string := "File has been saved!"
  const GuessedRight: string := "You Guessed Correct."
  const GuessedWrong: string := "You Guessed Wrong"

  // ---------------------------------------------------------------------
  // Game window handlers

  /** The capped add of `update_stats`: the sum, but 100 once the sum
      reaches 100. There is no lower bound. */
  function Capped(value: int, amount: int): (r: int)
    ensures r <= 100
    ensures r == 100 <==> value + amount >= 100
    ensures r < 100 ==> r == value + amount
  {
    if value + amount >= 100 then 100 else value + amount
  }

  /** `update_stats`: the bar of `st` and the pet's copy of it both become
      the capped sum; nothing else changes. */
  function UpdateStats(s: GameState, st: Stat, amount: int): (r: GameState)
    ensures Bar(r, st) == Capped(Bar(s, st), amount) && PetStat(r.pet, st) == Bar(r, st)
    ensures st != Health ==> r.health == s.health && r.pet.health == s.pet.health
    ensures st != Hunger ==> r.hunger == s.hunger && r.pet.hunger == s.pet.hunger
    ensures st != Happiness ==> r.happiness == s.happiness && r.pet.happiness == s.pet.happiness
    ensures SameLife(r.pet, s.pet) && r.controls == s.controls && r.status == s.status
  {
    var v := Capped(Bar(s, st), amount);
    match st
    case Health => s.(health := v, pet := s.pet.(health := v))
    case Hunger => s.(hunger := v, pet := s.pet.(hunger := v))
    case Happiness => s.(happiness := v, pet := s.pet.(happiness := v))
  }

  /** `disable_enable_buttons`: sleep, game, feed and medicine all set to
      `on`; discipline, duck and save untouched. */
  function SetMain(c: Controls, on: bool): (r: Controls)
    ensures MainControls(r, on)
    ensures r.discipline == c.discipline && r.duck == c.duck && r.save == c.save
  {
    c.(sleep := on, game := on, feed := on, medicine := on)
  }

  /** `getting_sick`: nothing while asleep; otherwise the pet is sick, the
      medicine button is the way out, sleep and game are disabled, and feed is
      left as it was. */
  function GettingSick(s: GameState): (r: GameState)
    ensures s.pet.sleeping ==> r == s
    ensures !s.pet.sleeping ==>
      r.pet == s.pet.(sick := true) &&
      r.controls.medicine && !r.controls.sleep && !r.controls.game &&
      r.controls.feed == s.controls.feed &&
      r.controls.(medicine := s.controls.medicine, sleep := s.controls.sleep, game := s.controls.game) == s.controls &&
      r.status == NeedsMedicine(s.pet.name)
    ensures Bar(r, Health) == Bar(s, Health) && Bar(r, Hunger) == Bar(s, Hunger) && Bar(r, Happiness) == Bar(s, Happiness)
  {
    if s.pet.sleeping then s
    else
      s.(pet := s.pet.(sick := true),
         status := NeedsMedicine(s.pet.name),
         controls := s.controls.(sleep := false, game := false, medicine := true))
  }

  /** `dead_tamagotchi` without the removal of the save file: every button
      but the main menu disabled, and the status says the pet has died. */
  function DeadTamagotchi(s: GameState): (r: GameState)
    ensures NoControls(r.controls) && r.status == HasDied(s.pet.name)
    ensures r.pet == s.pet && r.health == s.health && r.hunger == s.hunger && r.happiness == s.happiness
  {
    s.(status := HasDied(s.pet.name), controls := SetMain(s.controls, false).(discipline := false, duck := false, save := false))
  }

  /** Sets the dead flag, then runs `dead_tamagotchi`. */
  function Kill(s: GameState): (r: GameState)
    ensures r.pet == s.pet.(dead := true)
    ensures NoControls(r.controls) && r.status == HasDied(s.pet.name)
    ensures r.health == s.health && r.hunger == s.hunger && r.happiness == s.happiness
  {
    DeadTamagotchi(s.(pet := s.pet.(dead := true)))
  }

  /** The loop over the hunger and happiness bars in the decay branch:
      `getting_sick` once per bar at or below 0. */
  function SicknessCheck(a: GameState): (r: GameState)
    ensures r == if !a.pet.sleeping && (a.hunger <= 0 || a.happiness <= 0) then GettingSick(a) else a
    ensures !a.pet.sleeping && (a.hunger <= 0 || a.happiness <= 0) ==>
      r.controls == a.controls.(sleep := false, game := false, medicine := true) &&
      r.status == NeedsMedicine(a.pet.name)
    ensures !(!a.pet.sleeping && (a.hunger <= 0 || a.happiness <= 0)) ==>
      r.controls == a.controls && r.status == a.status
    ensures r.pet == a.pet.(sick := r.pet.sick)
    ensures r.pet.sick <==> a.pet.sick || (!a.pet.sleeping && (a.hunger <= 0 || a.happiness <= 0))
    ensures r.health == a.health && r.hunger == a.hunger && r.happiness == a.happiness
  {
    var b := if a.hunger <= 0 then GettingSick(a) else a;
    if b.happiness <= 0 then GettingSick(b) else b
  }

  /** The end of the decay branch, after the sickness check: death when the
      health bar is at or below 0, then the medicine button disabled unless
      the pet is sick. */
  function DeathCheck(c: GameState): (r: GameState)
    ensures r.pet == c.pet.(dead := c.pet.dead || c.health <= 0)
    ensures r.health == c.health && r.hunger == c.hunger && r.happiness == c.happiness
    ensures c.health <= 0 ==> NoControls(r.controls) && r.status == HasDied(c.pet.name)
    ensures c.health > 0 ==>
      r.controls == (if c.pet.sick then c.controls else c.controls.(medicine := false)) &&
      r.status == c.status
  {
    var d := if c.health <= 0 then Kill(c) else c;
    if !d.pet.sick then d.(controls := d.controls.(medicine := false)) else d
  }

  /** The branch of `onCountChanged` for a decay event (code below 3). */
  function Decay(s: GameState, code: nat): (r: GameState)
    requires code < 3
    ensures Bar(r, StatOf(code)) == Capped(Bar(s, StatOf(code)), -1)
    ensures r.pet.(sick := s.pet.sick, dead := s.pet.dead) == UpdateStats(s, StatOf(code), -1).pet
    ensures Bar(s, StatOf(code)) <= 100 ==> Bar(r, StatOf(code)) == Bar(s, StatOf(code)) - 1
    ensures StatOf(code) != Health ==> r.health == s.health
    ensures StatOf(code) != Hunger ==> r.hunger == s.hunger
    ensures StatOf(code) != Happiness ==> r.happiness == s.happiness
    ensures r.pet.dead <==> s.pet.dead || r.health <= 0
    ensures r.pet.sick <==> s.pet.sick || (!s.pet.sleeping && (r.hunger <= 0 || r.happiness <= 0))
    ensures !r.pet.sick ==> !r.controls.medicine
    ensures r.pet.age == s.pet.age && r.pet.sleeping == s.pet.sleeping && r.pet.playingWithPet == s.pet.playingWithPet
    ensures r.pet.needsDiscipline == s.pet.needsDiscipline && r.pet.needsCleaning == s.pet.needsCleaning
    ensures r.pet.dead && !s.pet.dead ==> NoControls(r.controls) && r.status == HasDied(s.pet.name)
    // a low bar on an awake pet calls `getting_sick`, sick already or not
    ensures !r.pet.dead && !s.pet.sleeping && (r.hunger <= 0 || r.happiness <= 0) ==>
      r.controls == s.controls.(sleep := false, game := false, medicine := true) &&
      r.status == NeedsMedicine(s.pet.name)
    // otherwise only the medicine button of a pet that is not sick changes
    ensures !r.pet.dead && !(!s.pet.sleeping && (r.hunger <= 0 || r.happiness <= 0)) ==>
      r.controls == (if s.pet.sick then s.controls else s.controls.(medicine := false)) &&
      r.status == s.status
    // the same, with no test of `dead`: a pet dead on entry is killed again at
    // health 0 or below, and otherwise goes through the sickness lines
    ensures r.health <= 0 ==> NoControls(r.controls) && r.status == HasDied(s.pet.name)
    ensures r.health > 0 && !s.pet.sleeping && (r.hunger <= 0 || r.happiness <= 0) ==>
      r.controls == s.controls.(sleep := false, game := false, medicine := true) &&
      r.status == NeedsMedicine(s.pet.name)
    ensures r.health > 0 && !(!s.pet.sleeping && (r.hunger <= 0 || r.happiness <= 0)) ==>
      r.controls == (if s.pet.sick then s.controls else s.controls.(medicine := false)) &&
      r.status == s.status
  {
    var a := UpdateStats(s, StatOf(code), -1);
    DeathCheck(SicknessCheck(a))
  }

  /** The branch of `onCountChanged` for the age event (code 3). */
  function AgeUp(s: GameState): (r: GameState)
    ensures r.pet == s.pet.(age := s.pet.age + 1, dead := s.pet.dead || s.pet.age + 1 > 3)
    ensures r.health == s.health && r.hunger == s.hunger && r.happiness == s.happiness
    ensures r.pet.dead && !s.pet.dead ==> NoControls(r.controls) && r.status == HasDied(s.pet.name)
    ensures !r.pet.dead ==> r.controls == s.controls && r.status == s.status
    // with no test of `dead`: past 3 the pet is killed again, otherwise kept
    ensures s.pet.age + 1 > 3 ==> NoControls(r.controls) && r.status == HasDied(s.pet.name)
    ensures s.pet.age + 1 <= 3 ==> r.controls == s.controls && r.status == s.status
  {
    var aged := s.(pet := s.pet.(age := s.pet.age + 1));
    if aged.pet.age > 3 then Kill(aged) else aged
  }

  /** The branch of `onCountChanged` that raises the discipline need (code 5). */
  function RaiseDiscipline(s: GameState): (r: GameState)
    ensures r.pet == s.pet.(needsDiscipline := true)
    ensures r.controls == SetMain(s.controls, false).(discipline := true)
    ensures r.controls.discipline && MainControls(r.controls, false) && r.status == NeedsDisciplining(s.pet.name)
    ensures r.health == s.health && r.hunger == s.hunger && r.happiness == s.happiness
  {
    s.(status := NeedsDisciplining(s.pet.name),
       pet := s.pet.(needsDiscipline := true),
       controls := SetMain(s.controls.(discipline := true), false))
  }

  /** The branch of `onCountChanged` that raises the cleaning need (code 6). */
  function RaiseCleaning(s: GameState): (r: GameState)
    ensures r.pet == s.pet.(needsCleaning := true)
    ensures r.controls == SetMain(s.controls, false).(duck := true)
    ensures r.controls.duck && MainControls(r.controls, false) && r.status == NeedsCleaning(s.pet.name)
    ensures r.health == s.health && r.hunger == s.hunger && r.happiness == s.happiness
  {
    s.(status := NeedsCleaning(s.pet.name),
       pet := s.pet.(needsCleaning := true),
       controls := SetMain(s.controls.(duck := true), false))
  }

  /** `onCountChanged` exactly as the source writes it: 0, 1, 2 decay health,
      hunger, happiness; 3 ages; 5 and 6 raise the discipline and cleaning
      needs. Only the minigame stops it: a pet that has died still has its
      needs raised, and the discipline button enabled again. */
  function OnCountChangedAsWritten(s: GameState, code: nat): (r: GameState)
    ensures s.pet.playingWithPet ==> r == s
    ensures code == 5 && !s.pet.playingWithPet && !s.pet.sick ==>
      r.pet.needsDiscipline && r.controls.discipline
  {
    if s.pet.playingWithPet then s
    else
      var a := if code < 3 then Decay(s, code) else s;
      var b := if code == 3 then AgeUp(a) else a;
      var c := if code == 5 && !b.pet.sick then RaiseDiscipline(b) else b;
      if code == 6 && !c.pet.sick && !c.pet.sleeping then RaiseCleaning(c) else c
  }

  /** The clock's events reach the handler: the pet is neither playing the
      minigame nor dead. */
  predicate Ticking(s: GameState) {
    !s.pet.playingWithPet && !s.pet.dead
  }

  /** `onCountChanged` with the death of the pet corrected: like the minigame,
      death stops the clock's effects (the update loop itself stops at its
      next test of the dead flag). Otherwise identical to the source. */
  function OnCountChanged(s: GameState, code: nat): (r: GameState)
    // the minigame and death freeze the clock's effects entirely
    ensures !Ticking(s) ==> r == s
    ensures Ticking(s) ==> r == OnCountChangedAsWritten(s, code)
    ensures code !in {0, 1, 2, 3, 5, 6} ==> r == s
    ensures r.pet.playingWithPet == s.pet.playingWithPet && (s.pet.dead ==> r.pet.dead)
    // decay: one stat down by one, the other two untouched
    ensures Ticking(s) && code < 3 ==>
      (Bar(s, StatOf(code)) <= 100 ==> Bar(r, StatOf(code)) == Bar(s, StatOf(code)) - 1) &&
      (StatOf(code) != Health ==> r.health == s.health) &&
      (StatOf(code) != Hunger ==> r.hunger == s.hunger) &&
      (StatOf(code) != Happiness ==> r.happiness == s.happiness)
    // decay: death exactly when health is at or below 0 afterwards
    ensures Ticking(s) && code < 3 ==> (r.pet.dead <==> r.health <= 0)
    // decay: sickness exactly when hunger or happiness is at or below 0 while awake
    ensures Ticking(s) && code < 3 ==>
      (r.pet.sick <==> s.pet.sick || (!s.pet.sleeping && (r.hunger <= 0 || r.happiness <= 0)))
    ensures Ticking(s) && code < 3 ==>
      (!r.pet.sick ==> !r.controls.medicine) &&
      r.pet.age == s.pet.age && r.pet.sleeping == s.pet.sleeping &&
      r.pet.needsDiscipline == s.pet.needsDiscipline && r.pet.needsCleaning == s.pet.needsCleaning
    // decay: the pet's copy of the stat follows the bar; sick and dead aside, nothing else of the pet changes
    ensures Ticking(s) && code < 3 ==>
      r.pet.(sick := s.pet.sick, dead := s.pet.dead) == UpdateStats(s, StatOf(code), -1).pet
    // decay without death: the buttons and status `getting_sick` leaves, or
    // only the medicine button of a pet that is not sick
    ensures Ticking(s) && code < 3 && !r.pet.dead && !s.pet.sleeping && (r.hunger <= 0 || r.happiness <= 0) ==>
      r.controls == s.controls.(sleep := false, game := false, medicine := true) &&
      r.status == NeedsMedicine(s.pet.name)
    ensures Ticking(s) && code < 3 && !r.pet.dead && !(!s.pet.sleeping && (r.hunger <= 0 || r.happiness <= 0)) ==>
      r.controls == (if s.pet.sick then s.controls else s.controls.(medicine := false)) &&
      r.status == s.status
    // age: one stage older, and death exactly when the stage passes 3
    ensures Ticking(s) && code == 3 ==>
      r.pet.age == s.pet.age + 1 && (r.pet.dead <==> r.pet.age > 3) &&
      r.health == s.health && r.hunger == s.hunger && r.happiness == s.happiness &&
      r.pet == s.pet.(age := s.pet.age + 1, dead := r.pet.dead)
    ensures Ticking(s) && code == 3 && !r.pet.dead ==> r.controls == s.controls && r.status == s.status
    // a death disables every button and says so
    ensures r.pet.dead && !s.pet.dead ==>
      NoControls(r.controls) && r.status == HasDied(s.pet.name)
    // discipline need: raised unless sick, even while asleep; cleaning need untouched
    ensures Ticking(s) && code == 5 ==>
      (r.pet.needsDiscipline <==> s.pet.needsDiscipline || !s.pet.sick) &&
      r.pet.needsCleaning == s.pet.needsCleaning &&
      (s.pet.sick ==> r == s) &&
      (!s.pet.sick ==> r.pet == s.pet.(needsDiscipline := true) &&
                       r.controls == SetMain(s.controls, false).(discipline := true) &&
                       r.health == s.health && r.hunger == s.hunger && r.happiness == s.happiness &&
                       r.status == NeedsDisciplining(s.pet.name))
    // cleaning need: raised unless sick or asleep; discipline need untouched
    ensures Ticking(s) && code == 6 ==>
      (r.pet.needsCleaning <==> s.pet.needsCleaning || (!s.pet.sick && !s.pet.sleeping)) &&
      r.pet.needsDiscipline == s.pet.needsDiscipline &&
      (s.pet.sick || s.pet.sleeping ==> r == s) &&
      (!s.pet.sick && !s.pet.sleeping ==>
         r.pet == s.pet.(needsCleaning := true) &&
         r.controls == SetMain(s.controls, false).(duck := true) &&
         r.health == s.health && r.hunger == s.hunger && r.happiness == s.happiness &&
         r.status == NeedsCleaning(s.pet.name))
  {
    if !Ticking(s) then s
    else if code < 3 then Decay(s, code)
    else if code == 3 then AgeUp(s)
    else if code == 5 && !s.pet.sick then RaiseDiscipline(s)
    else if code == 6 && !s.pet.sick && !s.pet.sleeping then RaiseCleaning(s)
    else s
  }

  /** `change_lights`, the sleep button: going to sleep disables sleep, game,
      feed and medicine; waking up leaves the buttons to the caller. Either
      way the sleeping flag flips. */
  function ChangeLights(s: GameState): (r: GameState)
    ensures r.pet == s.pet.(sleeping := !s.pet.sleeping)
    ensures !s.pet.sleeping ==> r.controls == SetMain(s.controls, false)
    ensures s.pet.sleeping ==> r.controls == s.controls
    ensures r.health == s.health && r.hunger == s.hunger && r.happiness == s.happiness && r.status == s.status
  {
    var c := if !s.pet.sleeping then SetMain(s.controls, false) else s.controls;
    s.(controls := c, pet := s.pet.(sleeping := !s.pet.sleeping))
  }

  /** `onSleep` exactly as the source writes it: 0 is +5 health, 2 is +1
      happiness, 3 wakes the pet and enables sleep, game, feed and medicine,
      whether or not the pet has died in the meantime. */
  function OnSleepAsWritten(s: GameState, code: nat): (r: GameState)
    ensures code == 3 ==> r.pet.sleeping == !s.pet.sleeping && MainControls(r.controls, true)
    ensures code !in {0, 2, 3} ==> r == s
  {
    if code == 0 then UpdateStats(s, Health, 5)
    else if code == 2 then UpdateStats(s, Happiness, 1)
    else if code == 3 then
      var w := ChangeLights(s);
      w.(controls := SetMain(w.controls, true))
    else s
  }

  /** `onSleep` with the wake-up step corrected: a pet that died during its
      nap keeps every button disabled. Otherwise identical to the source. */
  function OnSleep(s: GameState, code: nat): (r: GameState)
    ensures code == 0 ==> r == UpdateStats(s, Health, 5)
    ensures code == 2 ==> r == UpdateStats(s, Happiness, 1)
    ensures code == 3 ==>
      r.pet == s.pet.(sleeping := !s.pet.sleeping) &&
      r.health == s.health && r.hunger == s.hunger && r.happiness == s.happiness &&
      r.status == s.status
    ensures code == 3 && !s.pet.dead ==>
      r.controls == SetMain(s.controls, true)
    ensures code == 3 && s.pet.dead ==>
      r.controls == (if s.pet.sleeping then s.controls else SetMain(s.controls, false))
    ensures !s.pet.dead ==> r == OnSleepAsWritten(s, code)
    ensures code !in {0, 2, 3} ==> r == s
  {
    if code == 0 then UpdateStats(s, Health, 5)
    else if code == 2 then UpdateStats(s, Happiness, 1)
    else if code == 3 then
      var w := ChangeLights(s);
      if w.pet.dead then w else w.(controls := SetMain(w.controls, true))
    else s
  }

  /** `onSick`: 1 is the sickness decay (-5 health, -3 happiness, no death
      check); 2 is the cure, which applies whenever the pet is alive, sick or
      not; a dead pet is not cured. */
  function OnSick(s: GameState, code: nat): (r: GameState)
    ensures code == 1 ==>
      r.health == Capped(s.health, -5) && r.happiness == Capped(s.happiness, -3) &&
      r.hunger == s.hunger && SameLife(r.pet, s.pet) &&
      r.controls == s.controls && r.status == s.status
    ensures code == 1 ==> r.pet == s.pet.(health := r.health, happiness := r.happiness)
    ensures code == 2 && !s.pet.dead ==>
      r.pet == s.pet.(sick := false, medicinePressed := false, hunger := r.hunger, happiness := r.happiness)
    ensures code == 2 && !s.pet.dead ==>
      !r.pet.sick && !r.pet.medicinePressed &&
      r.hunger == Capped(s.hunger, 20) && r.happiness == Capped(s.happiness, 20) &&
      r.health == s.health &&
      r.controls == s.controls.(sleep := true, game := true) && r.status == "" &&
      r.pet.(sick := s.pet.sick, medicinePressed := s.pet.medicinePressed).(
        health := s.pet.health, hunger := s.pet.hunger, happiness := s.pet.happiness) == s.pet
    ensures code == 2 && s.pet.dead ==> r == s
    ensures code !in {1, 2} ==> r == s
  {
    if code == 1 then
      UpdateStats(UpdateStats(s, Health, -5), Happiness, -3)
    else if code == 2 && !s.pet.dead then Cure(s)
    else s
  }

  /** The first half of the cure: sleep and game enabled, the pet no longer
      sick and the medicine marked as pressed, the status cleared. */
  function Prescribe(s: GameState): (r: GameState)
    ensures r.pet == s.pet.(sick := false, medicinePressed := true)
    ensures r.controls.sleep && r.controls.game &&
      r.controls.(sleep := s.controls.sleep, game := s.controls.game) == s.controls
    ensures r.status == "" && r.health == s.health && r.hunger == s.hunger && r.happiness == s.happiness
  {
    s.(controls := s.controls.(sleep := true, game := true),
       pet := s.pet.(sick := false, medicinePressed := true),
       status := "")
  }

  /** The cure of `onSick`: the first half, then capped +20 hunger and +20
      happiness, then the medicine mark cleared again. */
  function Cure(s: GameState): (r: GameState)
    ensures !r.pet.sick && !r.pet.medicinePressed
    ensures r.hunger == Capped(s.hunger, 20) && r.happiness == Capped(s.happiness, 20) && r.health == s.health
    ensures r.pet.hunger == r.hunger && r.pet.happiness == r.happiness
    ensures r.pet.(sick := s.pet.sick, medicinePressed := s.pet.medicinePressed, hunger := s.pet.hunger,
                   happiness := s.pet.happiness) == s.pet
    ensures r.controls == s.controls.(sleep := true, game := true) && r.status == ""
  {
    var b := UpdateStats(UpdateStats(Prescribe(s), Hunger, 20), Happiness, 20);
    b.(pet := b.pet.(medicinePressed := false))
  }

  /** `clean_tamagotchi`, the duck button: clears the cleaning need only.
      If the discipline need is still pending the status names it and the
      buttons stay as they are; else the status is cleared, and an awake pet
      gets sleep, game, feed and medicine back. */
  function CleanTamagotchi(s: GameState): (r: GameState)
    ensures !r.pet.needsCleaning && r.pet == s.pet.(needsCleaning := false)
    ensures !r.controls.duck && r.controls.discipline == s.controls.discipline && r.controls.save == s.controls.save
    ensures s.pet.needsDiscipline ==>
      r.status == NeedsDisciplining(s.pet.name) && r.controls == s.controls.(duck := false)
    ensures !s.pet.needsDiscipline ==> r.status == ""
    ensures !s.pet.needsDiscipline && s.pet.sleeping ==> r.controls == s.controls.(duck := false)
    ensures !s.pet.needsDiscipline && !s.pet.sleeping ==> MainControls(r.controls, true)
    ensures r.health == s.health && r.hunger == s.hunger && r.happiness == s.happiness
  {
    var a := s.(pet := s.pet.(needsCleaning := false));
    var b :=
      if a.pet.needsDiscipline then a.(status := NeedsDisciplining(a.pet.name))
      else if a.pet.sleeping then a.(status := "")
      else a.(controls := SetMain(a.controls, true), status := "");
    b.(controls := b.controls.(duck := false))
  }

  /** `discipline_tamagotchi`: the mirror image of `clean_tamagotchi`. */
  function DisciplineTamagotchi(s: GameState): (r: GameState)
    ensures !r.pet.needsDiscipline && r.pet == s.pet.(needsDiscipline := false)
    ensures !r.controls.discipline && r.controls.duck == s.controls.duck && r.controls.save == s.controls.save
    ensures s.pet.needsCleaning ==>
      r.status == NeedsCleaning(s.pet.name) && r.controls == s.controls.(discipline := false)
    ensures !s.pet.needsCleaning ==> r.status == ""
    ensures !s.pet.needsCleaning && s.pet.sleeping ==> r.controls == s.controls.(discipline := false)
    ensures !s.pet.needsCleaning && !s.pet.sleeping ==> MainControls(r.controls, true)
    ensures r.health == s.health && r.hunger == s.hunger && r.happiness == s.happiness
  {
    var a := s.(pet := s.pet.(needsDiscipline := false));
    var b :=
      if a.pet.needsCleaning then a.(status := NeedsCleaning(a.pet.name))
      else if a.pet.sleeping then a.(status := "")
      else a.(controls := SetMain(a.controls, true), status := "");
    b.(controls := b.controls.(discipline := false))
  }

  /** `init_stats`: the bars take the pet's stats, sleep, game, feed,
      medicine and save are enabled, discipline and duck disabled, and the
      status is cleared. The pet record itself is untouched. */
  function InitStats(s: GameState): (r: GameState)
    ensures Synced(r) && r.pet == s.pet
    ensures MainControls(r.controls, true) && r.controls.save && !r.controls.discipline && !r.controls.duck
    ensures r.status == ""
    ensures s.pet.health <= 100 && s.pet.hunger <= 100 && s.pet.happiness <= 100 ==> Bounded(r)
  {
    var a := s.(health := s.pet.health, hunger := s.pet.hunger, happiness := s.pet.happiness);
    var b := a.(controls := SetMain(a.controls, true));
    var c := b.(controls := b.controls.(save := true), status := "");
    c.(controls := c.controls.(discipline := false, duck := false))
  }

  /** The state part of `save_current_game`: the status reports the save. */
  function SaveCurrentGame(s: GameState): (r: GameState)
    ensures r == s.(status := SavedMessage)
  {
    s.(status := SavedMessage)
  }

  // ---------------------------------------------------------------------
  // Minigame handlers

  /** The part of `layout` that reaches into the game window: the pet is
      playing, and sleep, game, feed and medicine are disabled. */
  function StartRound(g: GameState): (r: GameState)
    ensures r.pet == g.pet.(playingWithPet := true)
    ensures r.controls == SetMain(g.controls, false)
    ensures r.health == g.health && r.hunger == g.hunger && r.happiness == g.happiness && r.status == g.status
  {
    var g1 := g.(pet := g.pet.(playingWithPet := true));
    g1.(controls := SetMain(g1.controls, false))
  }

  /** `HappinessGame.layout`, the game button: the direction is chosen by
      the caller; the guesses are open, the confirmation closed, the pet is
      playing and the main buttons of the game window are disabled. */
  function Layout(ss: Session, d: Direction): (r: Session)
    ensures r.game.pet == ss.game.pet.(playingWithPet := true)
    ensures r.game.controls == SetMain(ss.game.controls, false)
    ensures r.game.health == ss.game.health && r.game.hunger == ss.game.hunger &&
            r.game.happiness == ss.game.happiness && r.game.status == ss.game.status
    ensures r.mini.direction == d && !r.mini.wonGame && r.mini.shown
    ensures r.mini.guessLeft && r.mini.guessRight && !r.mini.confirm
    // the result text of an abandoned round is not cleared
    ensures r.mini.results == ss.mini.results
  {
    Session(
      StartRound(ss.game),
      ss.mini.(guessLeft := true, guessRight := true, confirm := false,
               wonGame := false, direction := d, shown := true))
  }

  /** `HappinessGame.guessed`: one guess; a right guess wins, a wrong one
      leaves the outcome as it was. The game window is untouched. */
  function Guessed(ss: Session, d: Direction): (r: Session)
    ensures r.game == ss.game
    ensures r.mini.wonGame <==> ss.mini.wonGame || d == ss.mini.direction
    ensures r.mini.results == (if d == ss.mini.direction then GuessedRight else GuessedWrong)
    ensures !r.mini.guessLeft && !r.mini.guessRight && r.mini.confirm
    ensures r.mini.direction == ss.mini.direction && r.mini.shown == ss.mini.shown
  {
    var m := ss.mini.(guessLeft := false, guessRight := false, confirm := true);
    if d == m.direction then Session(ss.game, m.(wonGame := true, results := GuessedRight))
    else Session(ss.game, m.(results := GuessedWrong))
  }

  /** The hand-back to the game window that ends every round of the
      minigame: the pet stops playing, sleep, game and feed come back and
      medicine is disabled. */
  function EndRound(g: GameState): (r: GameState)
    ensures r.pet == g.pet.(playingWithPet := false)
    ensures r.controls == SetMain(g.controls, true).(medicine := false)
    ensures r.health == g.health && r.hunger == g.hunger && r.happiness == g.happiness && r.status == g.status
  {
    var g1 := g.(pet := g.pet.(playingWithPet := false));
    var g2 := g1.(controls := SetMain(g1.controls, true));
    g2.(controls := g2.controls.(medicine := false))
  }

  /** `HappinessGame.confirmed`: +50 happiness (capped) only on a win, then
      the round ends. */
  function Confirmed(ss: Session): (r: Session)
    ensures r.game.happiness == (if ss.mini.wonGame then Capped(ss.game.happiness, 50) else ss.game.happiness)
    ensures r.game.health == ss.game.health && r.game.hunger == ss.game.hunger
    ensures r.game.pet == ss.game.pet.(playingWithPet := false,
      happiness := if ss.mini.wonGame then r.game.happiness else ss.game.pet.happiness)
    ensures r.game.controls == SetMain(ss.game.controls, true).(medicine := false)
    ensures r.game.status == ss.game.status
    ensures r.mini == ss.mini.(results := "", shown := false)
  {
    var m := ss.mini.(results := "");
    var g := if m.wonGame then UpdateStats(ss.game, Happiness, 50) else ss.game;
    Session(EndRound(g), m.(shown := false))
  }

  /** `HappinessGame.closeEvent`: closing the minigame window ends the round
      with no change to happiness. */
  function CloseEvent(ss: Session): (r: Session)
    ensures r.game.pet == ss.game.pet.(playingWithPet := false)
    ensures r.game.controls == SetMain(ss.game.controls, true).(medicine := false)
    ensures r.game.health == ss.game.health && r.game.hunger == ss.game.hunger &&
            r.game.happiness == ss.game.happiness && r.game.status == ss.game.status
    ensures r.mini == ss.mini.(shown := false)
  {
    Session(EndRound(ss.game), ss.mini.(shown := false))
  }

  // ---------------------------------------------------------------------
  // Properties of single handlers

  /** A second `getting_sick` (the decay branch calls it once per low bar)
      changes nothing more. */
  lemma GettingSickIdempotent(s: GameState)
    ensures GettingSick(GettingSick(s)) == GettingSick(s)
  {
  }

  /** Sickness never starts while the pet is asleep, whatever the event. */
  lemma NoSicknessWhileAsleep(s: GameState, code: nat)
    requires s.pet.sleeping && !s.pet.sick
    ensures !OnCountChanged(s, code).pet.sick
  {
  }
}
