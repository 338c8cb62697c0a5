# Tamagotchi pet life cycle, in Dafny

This project models the life-cycle state machine of the Tamagotchi game:
the game window's handlers that decay, feed, cure, age, discipline, clean,
put to sleep and kill the pet, the happiness minigame's handlers, and the
three worker loops that drive them with event codes (the update clock, the
nap and the sickness loop). It also models the save-record text and the
name cut out of a save file's path.

- `text.dfy` (module `Text`): Python's `str.strip()`, `str(int)`, `int(str)`
  on the text `str(int)` writes, and `split` and `join` on one character,
  with the round trips between them.
- `pet_state.dfy` (module `PetState`): the two windows' state as values.
  The pet record, the three progress bars, the buttons' enabled flags, the
  status label and the minigame window. Every handler is a function from the
  state before the call to the state after it, with a contract saying what
  it does.
- `windows.dfy` (module `Windows`): the same handlers as methods of the
  classes `Tamagotchi`, `Game` and `HappinessGame`. The methods update the
  fields in place, in the source's statement order. Each is proved to reach
  exactly the state the matching `PetState` function describes.
- `threads.dfy` (module `Threads`): `Update.run`, `Sleeping.run` and
  `Sick.run` as loops that append the codes they emit to a sequence. Each is
  proved equal to a specification function, and the counts, first
  occurrences and order of their codes are proved about that function.
- `save_file.dfy` (module `SaveFile`): the six-line save record, its split
  back into `start_game`'s arguments, and the `[8:-5]` slice of a listed
  path.
- `lifecycle.dfy` (module `Lifecycle`): the pet's life as a run of atomic
  steps. Each step is a loop's code handed to its handler, or a click on an
  enabled button of the window in front. The lemmas here cover:
  - an invariant every run keeps: bars at most 100 and equal to the pet's
    stats, the minigame open exactly while the pet plays, and a dead pet
    with every button disabled;
  - that death is final: no run revives the pet, enables a button, changes
    the status, ages it or raises a need, though its bars may still move;
  - whole schedules: a nap, a sickness spell, minigame rounds.

The last part of the invariant and the finality of death hold because
`Lifecycle.Deliver` routes the clock's codes to the corrected
`PetState.OnCountChanged` and the nap's codes to the corrected
`PetState.OnSleep`. The handlers as written break both: they re-enable
buttons of a dead pet (see "## Findings").

The event codes are those of the source. The update clock emits 0 for a
health decay, 1 for hunger, 2 for happiness, 3 for age, 5 for the discipline
need and 6 for the cleaning need. The nap emits 0 for +5 health, 2 for +1
happiness and 3 for the wake-up. The sickness loop emits 1 for its decay
and 2 for the cure.

Behaviour of the code that the model keeps as written:
- The pet dies when its age passes 3 (`Windows.py:468`).
- The discipline need is raised even while the pet is asleep (`Windows.py:478`).
- `getting_sick` leaves the feed button as it was (`Windows.py:388-390`).
- `onSick(2)` adds +20 hunger and +20 happiness whenever the pet is alive, sick or not (`Windows.py:421-428`).
- A whole nap is ten +5 health steps and five +1 happiness steps (`Threads.py:66-70`).
- The sickness decay never kills: `onSick(1)` has no death check (`Windows.py:417-419`).
- A cure from the medicine button is followed by the sickness loop's own final 2. So the +20s are applied twice (`Threads.py:91-94`).
- `init_stats` does not reset the pet's flags (`Windows.py:296-308`).
- The sickness loop never reads `dead` (`Threads.py:91`), and `onSick(1)` lowers a dead pet's health and happiness like a living one's (`Windows.py:417-419`).
- The nap's 0s and 2s still add health and happiness to a pet that died during the nap (`Windows.py:402-406`).
- `layout` does not clear the result text of a round that was closed rather than confirmed (`Windows.py:595-624`, `Windows.py:660-668`).

## Model

| member | source | states |
|---|---|---|
| Text.StripSpec | Tamagotchi/Windows.py:384 | `strip()` leaves no white space at either end and keeps the slice of the name between its leading and trailing white space |
| Text.DecimalRoundTrip | Tamagotchi/Windows.py:298-300 | `int()` of the text `str()` wrote for an integer gives the same integer back |
| Text.Split | Tamagotchi/Windows.py:118 | `split('\n')` yields at least one field, no field holds the separator, and there is one field more than separators |
| Text.SplitJoin | Tamagotchi/Windows.py:118 | splitting a join of separator-free fields gives back the fields |
| Text.JoinSplit | Tamagotchi/Windows.py:118 | joining the split of any text gives back the text |
| SaveFile.SaveFields | Tamagotchi/Windows.py:528 | the record's six fields are name, health, hunger, happiness, style and age in that order, and each number reads back as its value |
| SaveFile.SaveRecord | Tamagotchi/Windows.py:528 | the written text is the six fields joined by newlines |
| SaveFile.LoadRecord | Tamagotchi/Windows.py:118-119 | a file loads into six arguments exactly when it holds five newlines, and those arguments join back into the file; otherwise the field count is reported |
| SaveFile.SelectSave | Tamagotchi/Windows.py:115-119 | nothing happens without a selected name; otherwise the file is split into `start_game`'s arguments |
| SaveFile.SaveThenLoad | Tamagotchi/Windows.py:528 | a saved pet whose name and style hold no newline loads back field for field, with the same numbers |
| SaveFile.NameOfSaveFile | Tamagotchi/Windows.py:101 | `path[8:-5]` is the slice between the first 8 and last 5 characters, or empty when the path is 13 characters or fewer |
| SaveFile.NameOfListedSave | Tamagotchi/Windows.py:100-101 | the name cut from a listed save path is the pet's name, and opening that name reaches the same path |
| SaveFile.SavedFileIsListed | Tamagotchi/Windows.py:530 | the path `save_current_game` writes, taken from the working directory, is the same string as the listed path of that name, and the slice of that path gives the name back |
| PetState.StatOf | Tamagotchi/Windows.py:446-450 | code 0 is health, 1 hunger, 2 happiness |
| PetState.Capped | Tamagotchi/Windows.py:514-517 | the new value is at most 100; it is 100 exactly when the sum reaches 100, and the sum otherwise |
| PetState.UpdateStats | Tamagotchi/Windows.py:507-519 | only the named bar changes, to the capped sum; the pet's copy of that stat follows the bar; flags, buttons and status are untouched |
| PetState.SetMain | Tamagotchi/Windows.py:345-349 | sleep, game, feed and medicine all take the given state; discipline, duck and save are untouched |
| PetState.GettingSick | Tamagotchi/Windows.py:375-391 | nothing while asleep; otherwise sick, medicine enabled, sleep and game disabled, feed untouched, status "needs medicine." |
| PetState.DeadTamagotchi | Tamagotchi/Windows.py:540-546 | every button but the main menu disabled and the status "has died"; pet and bars untouched |
| PetState.Kill | Tamagotchi/Windows.py:457-460 | the pet is marked dead and nothing else of it changes; every button is disabled and the status is "has died"; bars unchanged |
| PetState.DeathCheck | Tamagotchi/Windows.py:457-463 | the pet is dead afterwards exactly when it was or health is at or below 0, and a death disables every button; otherwise buttons and status are kept, with medicine disabled unless the pet is sick |
| PetState.SicknessCheck | Tamagotchi/Windows.py:452-455 | an awake pet with hunger or happiness at or below 0 becomes sick, loses sleep and game, gains medicine and the status "needs medicine."; in every other case nothing changes; the pet is sick exactly when it was, or that case holds |
| PetState.Decay | Tamagotchi/Windows.py:446-463 | one stat down by 1, the others unchanged, nothing else of the pet changed but sick and dead; health at or below 0 kills the pet, disabling every button and showing "has died", even when it was already dead; above 0, the sickness case sets the buttons and status as above, otherwise buttons and status are kept, with medicine disabled unless sick, whether or not the pet was dead on entry |
| PetState.AgeUp | Tamagotchi/Windows.py:466-476 | age up by exactly 1; past 3 the pet dies, with every button disabled and "has died", even when it was already dead; otherwise buttons and status unchanged, dead or alive |
| PetState.RaiseDiscipline | Tamagotchi/Windows.py:478-482 | only the discipline need set; main buttons disabled, discipline enabled, the other buttons kept; status names the need; bars unchanged |
| PetState.RaiseCleaning | Tamagotchi/Windows.py:484-488 | only the cleaning need set; main buttons disabled, duck enabled, the other buttons kept; status names the need; bars unchanged |
| PetState.OnCountChangedAsWritten | Tamagotchi/Windows.py:436-488 | the dispatcher as written: nothing while playing, and code 5 raises the discipline need of any pet that is not sick, dead or alive |
| PetState.OnCountChanged | Tamagotchi/Windows.py:436-488 | nothing while playing or dead, otherwise as written; per code: decay with the pet, buttons and status framed as in `Decay`, death at health ≤ 0, sickness only while awake; age +1 with death past 3, buttons and status kept otherwise; discipline need unless sick (even asleep), cleaning need unless sick or asleep, each with the buttons framed; other codes no-ops |
| PetState.ChangeLights | Tamagotchi/Windows.py:352-373 | the sleeping flag flips; falling asleep disables the main buttons, waking leaves them |
| PetState.OnSleepAsWritten | Tamagotchi/Windows.py:394-410 | as written, 3 wakes the pet and enables the main buttons whatever its state |
| PetState.OnSleep | Tamagotchi/Windows.py:394-410 | 0 is +5 health, 2 is +1 happiness, 3 flips sleep, keeps the status and enables the main buttons of a living pet; a dead pet keeps its buttons (disabled again on falling asleep); otherwise identical to the code as written |
| PetState.OnSick | Tamagotchi/Windows.py:412-429 | 1 is capped −5 health and −3 happiness, with the pet's own health and happiness following the bars, and nothing else; 2 on a living pet clears sick and the medicine mark, adds capped +20 hunger and happiness with the pet's copies following, and changes nothing else of the pet; it enables sleep and game and clears the status; 2 on a dead pet changes nothing |
| PetState.Prescribe | Tamagotchi/Windows.py:421-425 | sleep and game enabled and the other buttons kept; the pet is no longer sick and is marked as given medicine, nothing else of it changes; status cleared; bars unchanged |
| PetState.Cure | Tamagotchi/Windows.py:421-428 | the pet is well and the medicine mark is cleared again; hunger and happiness gain a capped 20, health is unchanged and the pet's stats follow the bars; sleep and game enabled, other buttons kept; status cleared |
| PetState.CleanTamagotchi | Tamagotchi/Windows.py:311-325 | clears only the cleaning need and disables duck; with discipline still pending the status names it and buttons stay; else status cleared and, if awake, main buttons enabled |
| PetState.DisciplineTamagotchi | Tamagotchi/Windows.py:327-342 | clears only the discipline need and disables discipline; with cleaning still pending the status names it and buttons stay; else status cleared and, if awake, main buttons enabled |
| PetState.InitStats | Tamagotchi/Windows.py:296-308 | bars take the pet's stats, main buttons and save enabled, discipline and duck disabled, status cleared, pet untouched |
| PetState.SaveCurrentGame | Tamagotchi/Windows.py:526 | only the status changes, to the saved message |
| PetState.StartRound | Tamagotchi/Windows.py:606 | the pet plays and nothing else of it changes; the main buttons are disabled, the others kept; bars and status unchanged |
| PetState.Layout | Tamagotchi/Windows.py:595-624 | the pet plays, the main buttons are disabled, the round opens with the given direction, both guesses open, confirm closed and no win yet; the previous result text is kept |
| PetState.Guessed | Tamagotchi/Windows.py:627-641 | the round is won exactly when the guess equals the direction (or was already won); guesses close, confirm opens, the result text matches; the game window is untouched |
| PetState.EndRound | Tamagotchi/Windows.py:653-655 | the pet stops playing, the main buttons come back with medicine disabled; bars and status untouched |
| PetState.Confirmed | Tamagotchi/Windows.py:644-657 | happiness gains a capped 50 exactly on a win; the pet stops playing and nothing else of it changes but its happiness; the round ends; the minigame only loses its result text and closes |
| PetState.CloseEvent | Tamagotchi/Windows.py:660-668 | the round ends with no change to the bars and the window closes |
| PetState.GettingSickIdempotent | Tamagotchi/Windows.py:452-455 | a second `getting_sick` for the second low bar changes nothing more |
| PetState.NoSicknessWhileAsleep | Tamagotchi/Windows.py:381 | no update-clock code makes a sleeping pet sick |
| Windows.Game.UpdateStats | Tamagotchi/Windows.py:507-519 | the in-place update reaches exactly `PetState.UpdateStats` |
| Windows.Game.DisableEnableButtons | Tamagotchi/Windows.py:345-349 | only the four main buttons change, to the given state |
| Windows.Game.GettingSick | Tamagotchi/Windows.py:375-391 | reaches exactly `PetState.GettingSick` |
| Windows.Game.DeadTamagotchi | Tamagotchi/Windows.py:540-546 | reaches exactly `PetState.DeadTamagotchi` |
| Windows.Game.CheckBars | Tamagotchi/Windows.py:452-455 | the loop over the hunger and happiness bars reaches exactly `PetState.SicknessCheck` |
| Windows.Game.DecayStat | Tamagotchi/Windows.py:449-463 | reaches exactly `PetState.Decay` |
| Windows.Game.AgeUp | Tamagotchi/Windows.py:466-476 | reaches exactly `PetState.AgeUp` |
| Windows.Game.RaiseDiscipline | Tamagotchi/Windows.py:478-482 | reaches exactly `PetState.RaiseDiscipline` |
| Windows.Game.RaiseCleaning | Tamagotchi/Windows.py:484-488 | reaches exactly `PetState.RaiseCleaning` |
| Windows.Game.OnCountChanged | Tamagotchi/Windows.py:436-488 | reaches exactly the corrected `PetState.OnCountChanged` |
| Windows.Game.ChangeLights | Tamagotchi/Windows.py:352-373 | reaches exactly `PetState.ChangeLights` |
| Windows.Game.OnSleep | Tamagotchi/Windows.py:394-410 | reaches exactly the corrected `PetState.OnSleep` |
| Windows.Game.SicknessDecay | Tamagotchi/Windows.py:417-419 | reaches exactly `PetState.OnSick` with code 1 |
| Windows.Game.Prescribe | Tamagotchi/Windows.py:421-426 | reaches exactly `PetState.Prescribe` |
| Windows.Game.Cure | Tamagotchi/Windows.py:421-429 | reaches exactly `PetState.Cure` |
| Windows.Game.OnSick | Tamagotchi/Windows.py:412-429 | reaches exactly `PetState.OnSick` |
| Windows.Game.CleanTamagotchi | Tamagotchi/Windows.py:311-325 | reaches exactly `PetState.CleanTamagotchi` |
| Windows.Game.DisciplineTamagotchi | Tamagotchi/Windows.py:327-342 | reaches exactly `PetState.DisciplineTamagotchi` |
| Windows.Game.InitStats | Tamagotchi/Windows.py:296-308 | reaches exactly `PetState.InitStats` |
| Windows.Game.EndRound | Tamagotchi/Windows.py:653-655 | reaches exactly `PetState.EndRound` |
| Windows.Game.StartRound | Tamagotchi/Windows.py:606 | reaches exactly `PetState.StartRound` |
| Windows.Game.SaveCurrentGame | Tamagotchi/Windows.py:522-531 | reports the save, and returns exactly the record `SaveFile.SaveRecord` describes for the pet |
| Windows.HappinessGame.Layout | Tamagotchi/Windows.py:595-624 | the game window and the minigame reach exactly `PetState.Layout` |
| Windows.HappinessGame.Guessed | Tamagotchi/Windows.py:627-641 | reaches exactly `PetState.Guessed` |
| Windows.HappinessGame.Confirmed | Tamagotchi/Windows.py:644-657 | the game window and the minigame reach exactly `PetState.Confirmed` |
| Windows.HappinessGame.CloseEvent | Tamagotchi/Windows.py:660-668 | reaches exactly `PetState.CloseEvent` |
| Threads.DueIsMultiple | Tamagotchi/Threads.py:31 | the loops' test `not clock % period` holds exactly when the counter is a multiple of the period |
| Threads.UpdateRun | Tamagotchi/Threads.py:23-47 | the counter starts at 1 and rises by one per iteration; the loop stops at the first dead reading; the codes are those of the iterations run |
| Threads.TickEmits | Tamagotchi/Threads.py:31-45 | iteration `clock` emits 1 iff it is even, 2 iff a multiple of 3, 0 of 5, 5 of 200, 6 of 250, 3 of 600, each at most once, nothing else |
| Threads.UpdateCounts | Tamagotchi/Threads.py:23-47 | the first N iterations emit N/2 hunger, N/3 happiness, N/5 health, N/200 discipline, N/250 cleaning and N/600 age codes |
| Threads.FirstNeeds | Tamagotchi/Threads.py:38-45 | the first discipline need comes at 200, the first cleaning need at 250, the first age event at 600 |
| Threads.BothNeeds | Tamagotchi/Threads.py:31-45 | on every 1000th iteration both needs fire, 5 right before 6, after the hunger and health decays |
| Threads.TickOrder | Tamagotchi/Threads.py:31-45 | one iteration emits, in this order, 1 on even counters, 2 on multiples of 3, 0 of 5, 5 of 200, 6 of 250 and 3 of 600 |
| Threads.Tick1000 | Tamagotchi/Threads.py:31-45 | iteration 1000 emits exactly 1, 0, 5, 6 |
| Threads.NapTickOrder | Tamagotchi/Threads.py:66-70 | a nap iteration emits 2 then 0 on every 10th counter, only 0 on the other multiples of 5, and nothing otherwise |
| Threads.NapThenWake | Tamagotchi/Threads.py:66-72 | a nap of n iterations emits n/5 health steps and n/10 happiness steps, then its only wake-up, last |
| Threads.SleepTotals | Tamagotchi/Threads.py:66-72 | a whole run is 16 codes: ten 0s, five 2s and one 3, which is last |
| Threads.SleepingRun | Tamagotchi/Threads.py:64-72 | the loop over counters 1 to 50 and the final wake-up emit exactly `SleepCodes()` |
| Threads.SickRun | Tamagotchi/Threads.py:89-94 | one 1 per iteration while the pet is sick and no medicine was pressed, then exactly one 2; only 2 when the condition fails at once |
| Lifecycle.InitStatsEstablishesInv | Tamagotchi/Windows.py:296-308 | opening the window on a living pet with stats at most 100 starts in a state of the invariant |
| Lifecycle.Deliver | Tamagotchi/Windows.py:394-488 | routes the update loop's codes to the corrected `onCountChanged`, the nap's to the corrected `onSleep` and the sickness loop's to `onSick` (the signals `Main file.py` connects at its lines 37-39); no signal revives, renames or starts the minigame; only the update loop ages or kills the pet; the sleeping loop never touches hunger |
| Lifecycle.Pressed | Tamagotchi/Windows.py:256-265 | no button kills, revives, ages, renames or starts the minigame; feed adds a capped 10 hunger and moves no other bar; only feed and medicine move bars; exactly the sleep button turns the lights; save changes only the status |
| Lifecycle.Step | Tamagotchi/Windows.py:255-265 | a signal goes to its handler and leaves the minigame alone; a click on a disabled button, on the game window while the minigame is shown, or on the minigame while it is hidden, changes nothing |
| Lifecycle.ClockKeeps | Tamagotchi/Windows.py:436-488 | the corrected clock handler keeps the bars sound; a pet dies only outside the minigame and loses every button; a dead pet is left alone (as written it is not, see Findings) |
| Lifecycle.NapKeeps | Tamagotchi/Windows.py:394-410 | the nap's codes keep the bars sound and never kill; with the corrected wake-up a dead pet keeps its buttons, status, age and needs, though its bars still rise |
| Lifecycle.SickKeeps | Tamagotchi/Windows.py:412-429 | the sickness loop's codes keep the bars sound and never kill; a dead pet keeps its buttons, status, age and needs, but a 1 still lowers its health and happiness |
| Lifecycle.PressedKeeps | Tamagotchi/Windows.py:255-265 | the game window's buttons keep the bars sound and never kill or start the minigame |
| Lifecycle.MinigameKeepsInv | Tamagotchi/Windows.py:595-668 | the minigame's clicks keep the invariant |
| Lifecycle.StepKeepsInv | Tamagotchi/Windows.py:255-265 | every code and every click keeps the invariant, with signals routed to the corrected clock and wake-up handlers |
| Lifecycle.RunKeepsInv | Tamagotchi/Windows.py:514-518 | every run keeps the invariant: no bar ever exceeds 100, the minigame is open exactly while the pet plays, and, with the corrected handlers, a dead pet has no button enabled |
| Lifecycle.DeadIsFinal | Tamagotchi/Windows.py:540-546 | with the corrected clock and wake-up handlers, once dead no run revives the pet, enables a button, changes the status, ages it, raises a need or opens the minigame; its bars may still move |
| Lifecycle.PlayingFreezesClock | Tamagotchi/Windows.py:443-444 | while the pet plays, any run of the update clock's codes changes nothing at all |
| Lifecycle.CappedTimesUp | Tamagotchi/Windows.py:514-518 | k capped adds of a non-negative amount to a value at most 100 give the sum, or 100 once the sum reaches 100 |
| Lifecycle.CappedTimesDown | Tamagotchi/Windows.py:514-518 | k adds of a non-positive amount are never capped and have no floor |
| Lifecycle.Round | Tamagotchi/Windows.py:644-657 | a round opened from the game button gains a capped 50 happiness exactly when the guess is right, and hands the main buttons back with medicine disabled |
| Lifecycle.TwoWonRounds | Tamagotchi/Windows.py:651 | two won rounds add two capped 50s; from 80 the result is 100 |
| Lifecycle.NapSteps | Tamagotchi/Windows.py:402-406 | the nap's 0s and 2s apply one capped +5 health and one capped +1 happiness each, in any order, and nothing else |
| Lifecycle.NapSignal | Tamagotchi/Windows.py:402-406 | one nap code 0 is a capped +5 health, a 2 a capped +1 happiness, keeping the bars sound |
| Lifecycle.WholeNap | Tamagotchi/Threads.py:66-70 | the whole nap loop is ten +5 health steps and five +1 happiness steps |
| Lifecycle.WakeUp | Tamagotchi/Windows.py:408-410 | the wake-up of a living pet leaves it awake with the main buttons enabled and nothing else changed |
| Lifecycle.SleepPress | Tamagotchi/Windows.py:262 | the enabled sleep button, outside the minigame, runs `change_lights` before the events that follow |
| Lifecycle.SleepRun | Tamagotchi/Threads.py:64-72 | a whole run of the sleeping loop on a living, sleeping pet is the rest and then the wake-up |
| Lifecycle.UninterruptedNap | Tamagotchi/Threads.py:64-72 | the sleep button and a whole nap give +50 health and +5 happiness (each capped at 100), the pet awake and alive, the main buttons enabled, hunger and status untouched |
| Lifecycle.NapFromPress | Tamagotchi/Threads.py:64-72 | the sleep button and a whole nap end in the rested, awake state with the main buttons enabled |
| Lifecycle.NapOutcome | Tamagotchi/Windows.py:402-410 | that state holds +50 health and +5 happiness (capped), unchanged hunger, dead flag and status, and the main buttons enabled |
| Lifecycle.SickSteps | Tamagotchi/Windows.py:417-419 | k sickness decays lower health by 5k and happiness by 3k, the pet's own copies following once k > 0, change nothing else and never kill |
| Lifecycle.SickSpell | Tamagotchi/Threads.py:89-94 | k decays and the loop's final cure leave the pet alive and well, with sleep and game enabled and the status cleared |
| Lifecycle.MedicineCuresTwice | Tamagotchi/Threads.py:91-94 | the medicine button and the sickness loop's final 2 apply the +20 hunger twice |
| Lifecycle.DeadPetSickensAsWritten | Tamagotchi/Windows.py:443-455 | as written, a dead, awake pet with health left whose hunger decays to 0 becomes sick, gets the medicine button and "needs medicine" over its death notice; the corrected handler leaves it unchanged |
| Lifecycle.DeathThenDisciplineAsWritten | Tamagotchi/Windows.py:478-482 | iteration 200 emits 1, 0, 5; as written a pet at health 1 dies and then gets the discipline button and status; corrected, it stays dead with every button disabled |
| Lifecycle.DeadPetWakesAsWritten | Tamagotchi/Windows.py:408-410 | a pet that dies asleep wakes with the main buttons enabled as written, and keeps them disabled when corrected |

## Left out

- Images, animations, style sheets, fonts and window layout: every `QMovie`, `QPixmap` and `setStyleSheet` line, and `Game.__init__` apart from which button calls which handler.
- File input and output. The model does not open, write, list or remove files. It keeps the record text, its split and the path slice.
- SaveFile.SavedFileIsListed: proves only that the saved and listed paths are the same string. `glob('./saves/*.TAMA')` skips names that start with '.' and cannot match a name holding '/', and `new_game` accepts any non-empty name. Such a pet is saved but never listed, and its save is not removed at death. The model does not capture `glob`.
- The `Tamagotchi` record and `start_game` live in `Main file.py`, which is not part of this model. The record is a class of plain fields, and `select_save` ends at the list of arguments it would pass.
- `MainMenu.__init__`, `select_style`, `new_game`, `menu_button`: menu and window switching, not part of the life cycle.
- Thread timing, `start` and `quit`, and the queued delivery of signals across threads. Each handler is one atomic step of `Lifecycle.Step`, and `Lifecycle.Run` accepts any order of steps, so no timing is assumed.
- Threads.UpdateRun: the dead flag it reads before each iteration is a parameter (`deadSeen`). A run is therefore finite: when the readings run out, the loop is still running.
- Threads.SickRun: the sick and medicine flags it reads are a parameter (`stillSick`), for the same reason.
- Windows.Game.GettingSick: does not start the sickness thread. Lifecycle feeds that thread's codes as separate steps.
- Windows.Game.ChangeLights: does not start the sleeping thread, for the same reason.
- Windows.Game.DeadTamagotchi: does not remove the save file.
- Windows.HappinessGame.Layout: the direction drawn by `choice([0, 1])` is a parameter. Hiding the game window and showing the minigame are the minigame's `shown` flag. A click on the game window counts only while that flag is false.
- Windows.HappinessGame.CloseEvent: sets the play flag after re-enabling the buttons, unlike `confirmed`. The end state is the same, so both use `EndRound`.
- PetState.UpdateStats: no floor at 0 is modelled. The source code caps only at 100, and any floor would come from the progress bar widget's own range handling, which the model does not assume. A bar may therefore go below 0.
- PetState.UpdateStats: the stat is written back as a typed integer. The source writes it back as the text `str` gives, through `exec`.
- The save button's tooltip text.
- Event codes are natural numbers. The loops emit only 0 to 6, so a negative code, which Python would read as an index from the end, never occurs.

## Findings

| source | as written | input that shows it | evidently intended | confidence | as-written member | corrected member |
|---|---|---|---|---|---|---|
| Tamagotchi/Windows.py:408-410 | on the nap's final 3, `onSleep` wakes the pet and enables sleep, game, feed and medicine without testing `dead` | a sleeping pet at health 1 receives the update clock's health decay (code 0) before the nap ends: it dies, then the wake-up re-enables its main buttons | a pet that died during its nap keeps every button disabled | not executed | Lifecycle.DeadPetWakesAsWritten | PetState.OnSleep |
| Tamagotchi/Windows.py:478-482 | `onCountChanged` stops only for the minigame, so code 5 reaches a dead pet and raises the discipline need; a hunger or happiness decay to 0 likewise makes a dead pet with health left sick again, with medicine enabled and "needs medicine" over its death notice (`Lifecycle.DeadPetSickensAsWritten`) | a pet at health 1, not sick, on update iteration 200, which emits 1, 0, 5: the 0 kills it, then the 5 enables discipline and replaces "has died" with "needs Disciplining" | the clock's codes do nothing to a dead pet, which keeps every button disabled and its death notice | not executed | Lifecycle.DeathThenDisciplineAsWritten | PetState.OnCountChanged |
