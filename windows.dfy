/** The game window and the minigame window as objects whose fields the
    handlers update in place. Each handler is proved to leave the window in
    exactly the state the matching function of module `PetState` computes,
    so every property proved about those functions holds of the objects.
    Images, animations, style sheets and window visibility beyond the
    minigame's `shown` flag are not modelled. */
module Windows {
  import opened Text
  import opened PetState
  import SaveFile

  /** The tamagotchi record, shared by the game window, the minigame and the
      threads. The stats are held as integers; the source keeps the text
      `str` gives them. */
  class Tamagotchi {
    var name: string
    var health: int
    var hunger: int
    var happiness: int
    var styleName: string
    var age: int
    var sick: bool
    var sleeping: bool
    var dead: bool
    var needsDiscipline: bool
    var needsCleaning: bool
    var playingWithPet: bool
    var medicinePressed: bool

    function Value(): Pet
      reads this
    {
      Pet(name, health, hunger, happiness, styleName, age, sick, sleeping, dead,
          needsDiscipline, needsCleaning, playingWithPet, medicinePressed)
    }

    constructor (p: Pet)
      ensures Value() == p
    {
      name, health, hunger, happiness := p.name, p.health, p.hunger, p.happiness;
      styleName, age := p.styleName, p.age;
      sick, sleeping, dead := p.sick, p.sleeping, p.dead;
      needsDiscipline, needsCleaning := p.needsDiscipline, p.needsCleaning;
      playingWithPet, medicinePressed := p.playingWithPet, p.medicinePressed;
    }
  }

  /** The game window: its pet, three progress bars, the buttons' enabled
      states and the status label. */
  class Game {
    const tamagotchi: Tamagotchi
    var progressHealth: int
    var progressHunger: int
    var progressHappiness: int
    var feed: bool
    var game: bool
    var medicine: bool
    var sleep: bool
    var discipline: bool
    var duck: bool
    var saveGame: bool
    var status: string

    function State(): GameState
      reads this, tamagotchi
    {
      GameState(tamagotchi.Value(), progressHealth, progressHunger, progressHappiness,
                Controls(feed, game, medicine, sleep, discipline, duck, saveGame), status)
    }

    /** A window over pet `t` whose widgets start as `s` describes. */
    constructor (t: Tamagotchi, s: GameState)
      ensures tamagotchi == t && State() == s.(pet := t.Value())
    {
      tamagotchi := t;
      progressHealth, progressHunger, progressHappiness := s.health, s.hunger, s.happiness;
      feed, game, medicine, sleep := s.controls.feed, s.controls.game, s.controls.medicine, s.controls.sleep;
      discipline, duck, saveGame := s.controls.discipline, s.controls.duck, s.controls.save;
      status := s.status;
    }

    /** `update_stats`: the bar of `st` takes the capped sum, and the pet's
        copy of that stat follows the bar. */
    method UpdateStats(st: Stat, amount: int)
      modifies this, tamagotchi
      ensures State() == PetState.UpdateStats(old(State()), st, amount)
    {
      match st {
        case Health =>
          progressHealth := Capped(progressHealth, amount);
          tamagotchi.health := progressHealth;
        case Hunger =>
          progressHunger := Capped(progressHunger, amount);
          tamagotchi.hunger := progressHunger;
        case Happiness =>
          progressHappiness := Capped(progressHappiness, amount);
          tamagotchi.happiness := progressHappiness;
      }
    }

    /** `disable_enable_buttons`. */
    method DisableEnableButtons(on: bool)
      modifies this
      ensures State() == old(State()).(controls := SetMain(old(State()).controls, on))
    {
      sleep := on;
      game := on;
      feed := on;
      medicine := on;
    }

    /** `getting_sick`; starting the sickness thread is left to the caller
        (see module `Lifecycle`). */
    method GettingSick()
      modifies this, tamagotchi
      ensures State() == PetState.GettingSick(old(State()))
    {
      if !tamagotchi.sleeping {
        tamagotchi.sick := true;
        status := NeedsMedicine(tamagotchi.name);
        sleep := false;
        game := false;
        medicine := true;
      }
    }

    /** `dead_tamagotchi`, without removing the save file. */
    method DeadTamagotchi()
      modifies this
      ensures State() == PetState.DeadTamagotchi(old(State()))
    {
      status := HasDied(tamagotchi.name);
      DisableEnableButtons(false);
      discipline := false;
      duck := false;
      saveGame := false;
    }

    /** The loop of the decay branch of `onCountChanged` over the bars after
        the health bar, hunger and then happiness: `getting_sick` for each
        one at or below 0. */
    method CheckBars()
      modifies this, tamagotchi
      ensures State() == SicknessCheck(old(State()))
    {
      ghost var a := State();
      var i := 1;
      while i < 3
        invariant 1 <= i <= 3
        invariant i == 1 ==> State() == a
        invariant i == 2 ==> State() == (if a.hunger <= 0 then PetState.GettingSick(a) else a)
        invariant i == 3 ==> State() == SicknessCheck(a)
      {
        var bar := if i == 1 then progressHunger else progressHappiness;
        if bar <= 0 {
          GettingSick();
        }
        i := i + 1;
      }
    }

    /** The decay branch of `onCountChanged` (codes 0, 1, 2): one stat
        down by one, the sickness check of `CheckBars`, death when the
        health bar is at or below 0, and the medicine button disabled unless
        the pet is sick. */
    method DecayStat(value: nat)
      requires value < 3
      modifies this, tamagotchi
      ensures State() == Decay(old(State()), value)
    {
      UpdateStats(StatOf(value), -1);
      CheckBars();
      if progressHealth <= 0 {
        tamagotchi.dead := true;
        DeadTamagotchi();
      }
      if !tamagotchi.sick {
        medicine := false;
      }
    }

    /** The age branch of `onCountChanged` (code 3). */
    method AgeUp()
      modifies this, tamagotchi
      ensures State() == PetState.AgeUp(old(State()))
    {
      tamagotchi.age := tamagotchi.age + 1;
      if tamagotchi.age > 3 {
        tamagotchi.dead := true;
        DeadTamagotchi();
      }
    }

    /** The branch of `onCountChanged` that raises the discipline need. */
    method RaiseDiscipline()
      modifies this, tamagotchi
      ensures State() == PetState.RaiseDiscipline(old(State()))
    {
      status := NeedsDisciplining(tamagotchi.name);
      tamagotchi.needsDiscipline := true;
      discipline := true;
      DisableEnableButtons(false);
    }

    /** The branch of `onCountChanged` that raises the cleaning need. */
    method RaiseCleaning()
      modifies this, tamagotchi
      ensures State() == PetState.RaiseCleaning(old(State()))
    {
      status := NeedsCleaning(tamagotchi.name);
      tamagotchi.needsCleaning := true;
      duck := true;
      DisableEnableButtons(false);
    }

    /** `onCountChanged`, the handler of the update clock's event codes,
        with the corrected early return for a dead pet (see
        `PetState.OnCountChangedAsWritten` for the handler as written); its
        four branches are the methods above. */
    method OnCountChanged(value: nat)
      modifies this, tamagotchi
      ensures State() == PetState.OnCountChanged(old(State()), value)
    {
      if tamagotchi.playingWithPet || tamagotchi.dead {
        return;
      }
      if value < 3 {
        DecayStat(value);
      }
      if value == 3 {
        AgeUp();
      }
      if value == 5 && !tamagotchi.sick {
        RaiseDiscipline();
      }
      if value == 6 && !tamagotchi.sick && !tamagotchi.sleeping {
        RaiseCleaning();
      }
    }

    /** `change_lights`, the sleep button; starting the sleeping thread is
        left to the caller (see module `Lifecycle`). */
    method ChangeLights()
      modifies this, tamagotchi
      ensures State() == PetState.ChangeLights(old(State()))
    {
      if !tamagotchi.sleeping {
        DisableEnableButtons(false);
      }
      tamagotchi.sleeping := !tamagotchi.sleeping;
    }

    /** `onSleep`, with the wake-up corrected so that a pet that died during
        its nap keeps its buttons disabled (see `PetState.OnSleepAsWritten`
        for the handler as written). */
    method OnSleep(value: nat)
      modifies this, tamagotchi
      ensures State() == PetState.OnSleep(old(State()), value)
    {
      if value == 0 {
        UpdateStats(Health, 5);
      } else if value == 2 {
        UpdateStats(Happiness, 1);
      } else if value == 3 {
        ChangeLights();
        if !tamagotchi.dead {
          DisableEnableButtons(true);
        }
      }
    }

    /** The sickness decay of `onSick` (code 1): -5 health and -3
        happiness, capped like every update, with no death check. */
    method SicknessDecay()
      modifies this, tamagotchi
      ensures State() == PetState.OnSick(old(State()), 1)
    {
      UpdateStats(Health, -5);
      UpdateStats(Happiness, -3);
    }

    /** The assignments that open the cure of `onSick`. */
    method Prescribe()
      modifies this, tamagotchi
      ensures State() == PetState.Prescribe(old(State()))
    {
      sleep := true;
      game := true;
      tamagotchi.sick := false;
      tamagotchi.medicinePressed := true;
      status := "";
    }

    /** The cure of `onSick` (code 2), which the handler runs only for a pet
        that is alive. */
    method Cure()
      modifies this, tamagotchi
      ensures State() == PetState.Cure(old(State()))
    {
      Prescribe();
      UpdateStats(Hunger, 20);
      UpdateStats(Happiness, 20);
      tamagotchi.medicinePressed := false;
    }

    /** `onSick`, the handler of the sickness thread's codes; its two
        branches are the methods above. */
    method OnSick(value: nat)
      modifies this, tamagotchi
      ensures State() == PetState.OnSick(old(State()), value)
    {
      if value == 1 {
        SicknessDecay();
      }
      if value == 2 && !tamagotchi.dead {
        Cure();
      }
    }

    /** `clean_tamagotchi`, the duck button. */
    method CleanTamagotchi()
      modifies this, tamagotchi
      ensures State() == PetState.CleanTamagotchi(old(State()))
    {
      tamagotchi.needsCleaning := false;
      if tamagotchi.needsDiscipline {
        status := NeedsDisciplining(tamagotchi.name);
      } else if tamagotchi.sleeping {
        status := "";
      } else {
        DisableEnableButtons(true);
        status := "";
      }
      duck := false;
    }

    /** `discipline_tamagotchi`, the discipline button. */
    method DisciplineTamagotchi()
      modifies this, tamagotchi
      ensures State() == PetState.DisciplineTamagotchi(old(State()))
    {
      tamagotchi.needsDiscipline := false;
      if tamagotchi.needsCleaning {
        status := NeedsCleaning(tamagotchi.name);
      } else if tamagotchi.sleeping {
        status := "";
      } else {
        DisableEnableButtons(true);
        status := "";
      }
      discipline := false;
    }

    /** `init_stats`, run whenever the window opens on a pet. */
    method InitStats()
      modifies this
      ensures State() == PetState.InitStats(old(State()))
    {
      progressHealth := tamagotchi.health;
      progressHunger := tamagotchi.hunger;
      progressHappiness := tamagotchi.happiness;
      DisableEnableButtons(true);
      saveGame := true;
      status := "";
      discipline := false;
      duck := false;
    }

    /** The part of a minigame round's opening that changes the game window. */
    method StartRound()
      modifies this, tamagotchi
      ensures State() == PetState.StartRound(old(State()))
    {
      tamagotchi.playingWithPet := true;
      DisableEnableButtons(false);
    }

    /** The hand-back that ends a round of the minigame. */
    method EndRound()
      modifies this, tamagotchi
      ensures State() == PetState.EndRound(old(State()))
    {
      tamagotchi.playingWithPet := false;
      DisableEnableButtons(true);
      medicine := false;
    }

    /** `save_current_game`: reports the save and returns the text written
        to the pet's save file. */
    method SaveCurrentGame() returns (contents: string)
      modifies this
      ensures State() == PetState.SaveCurrentGame(old(State()))
      ensures contents == SaveFile.SaveRecord(tamagotchi.Value())
    {
      status := SavedMessage;
      contents := tamagotchi.name + "\n" + Decimal(tamagotchi.health) + "\n" + Decimal(tamagotchi.hunger) +
        "\n" + Decimal(tamagotchi.happiness) + "\n" + tamagotchi.styleName + "\n" + Decimal(tamagotchi.age);
    }
  }

  /** The happiness minigame window. It reaches the game window's pet through
      the game window, which is the same object the source hands it. */
  class HappinessGame {
    const game: Game
    var direction: Direction
    var wonGame: bool
    var guessLeft: bool
    var guessRight: bool
    var confirm: bool
    var results: string
    var shown: bool

    function Mini(): MiniGame
      reads this
    {
      MiniGame(direction, wonGame, guessLeft, guessRight, confirm, results, shown)
    }

    function Value(): Session
      reads this, game, game.tamagotchi
    {
      Session(game.State(), Mini())
    }

    constructor (g: Game, m: MiniGame)
      ensures game == g && Value() == Session(g.State(), m)
    {
      game := g;
      direction, wonGame := m.direction, m.wonGame;
      guessLeft, guessRight, confirm := m.guessLeft, m.guessRight, m.confirm;
      results, shown := m.results, m.shown;
    }

    /** `layout`: opens a round in which the pet turns to `d`, the choice the
        source makes at random. */
    method Layout(d: Direction)
      modifies this, game, game.tamagotchi
      ensures game.State() == PetState.Layout(old(Value()), d).game
      ensures Mini() == PetState.Layout(old(Value()), d).mini
    {
      guessLeft := true;
      guessRight := true;
      confirm := false;
      wonGame := false;
      direction := d;
      game.StartRound();
      shown := true;
    }

    /** `guessed`: the player picks direction `d`. */
    method Guessed(d: Direction)
      modifies this
      ensures Value() == PetState.Guessed(old(Value()), d)
    {
      guessLeft := false;
      guessRight := false;
      confirm := true;
      if d == direction {
        wonGame := true;
        results := GuessedRight;
      } else {
        results := GuessedWrong;
      }
    }

    /** `confirmed`: ends the round and hands control back to the game window. */
    method Confirmed()
      modifies this, game, game.tamagotchi
      ensures game.State() == PetState.Confirmed(old(Value())).game
      ensures Mini() == PetState.Confirmed(old(Value())).mini
    {
      results := "";
      if wonGame {
        game.UpdateStats(Happiness, 50);
      }
      game.EndRound();
      shown := false;
    }

    /** `closeEvent`: closing the window abandons the round. */
    method CloseEvent()
      modifies this, game, game.tamagotchi
      ensures Value() == PetState.CloseEvent(old(Value()))
    {
      shown := false;
      game.EndRound();
    }
  }
}
