# Yalda business quiz — a Dafny model of its scoring and progression core

The game is a single-page quiz played in one sitting. An intro form takes the
player's name, phone number and class. Four stages follow:

1. a timed yes/no questionnaire with a combo streak;
2. a battle over five scenarios with clamped hit points and a one-shot shield;
3. three picture puzzles drawn from a pool of seven, which award a title;
4. a ten-second voice pitch scored from its loudest moment.

A result screen then merges the player into a fixed leaderboard and offers a
one-time prize wheel, an invite chest and a report download. A session
controller holds the phase, the player's stats record, a history of one log
line per stage and a progress counter.

The model follows the source's structure, one module per file:

- `GameTypes` (types.dfy): the records of `types.ts` and the initial stats.
- `Session` (session.dfy): the controller in `App.tsx`.
- `Desert`, `Arena`, `Boss`, `Pitch` (desert.dfy, arena.dfy, boss.dfy, pitch.dfy): the four stages.
- `Results` (results.dfy): the result screen.
- `Intro` (intro.dfy): the intro form.

Each component whose state cells change on events is a class. Its fields are
those cells, and each event handler is a method with a `modifies` frame whose
`ensures` give the whole new state. A delayed callback (`setTimeout`) is folded
into the event that schedules it, unless the source shows the state in between:

- stage 4 has a processing phase before it is done;
- the prize wheel spins before it stops;
- the chest unlocks a moment after the invite.

Each stage hands back a `Completion`: the new stats record and a `LogEntry`.
The log entry carries the numbers the source interpolates into its history line.

Three things are proved beyond the handlers' own contracts:

- Stage 1 is checked against a reference replay of the answers. The score is
  the sum of the per-answer awards, the combo is the current streak, and the
  recorded maximum is the longest streak.
- Stage 3 is checked against the title thresholds and the bounds on the round score.
- The result screen is checked against a stable descending insertion sort. The
  board is a sorted permutation, and the player lands right after every fixed
  entry that scores at least as much.

## Model

| member | source | states |
|---|---|---|
| Session.NextPhase | App.tsx:140-158 | a stage's completion leads to the next phase in the order level1, level2, level3, level4, result, and only the four stages have one |
| Session.StartStats | App.tsx:106-117 | the start record is the initial stats with name, phone and class, plus exactly one preset (archer energy 80; guardian hp = maxHp = 120; mage gold 500) and the class's title; every other field keeps its initial value |
| Session.Game.constructor | App.tsx:36-42 | the game starts in the intro phase with the initial stats, no history, progress 0 and music off |
| Session.Game.ToggleMusic | App.tsx:74-84 | the music flag flips and no other game-state field changes |
| Session.Game.MusicStarted | App.tsx:120-124 | playback starting on the start gesture sets the music flag and nothing else |
| Session.Game.Start | App.tsx:102-133 | start moves to level1 with the start record and leaves history, progress and the music flag unchanged |
| Session.Game.UpdateGameState | App.tsx:86-100 | a transition sets the phase, makes the stats exactly the stage's record, appends exactly one log line and adds 1 to the progress counter, which keeps counting the history lines |
| Session.Game.CompletionFiredTwice | App.tsx:86-100 | a completion callback fired twice sets its fixed next phase again, keeps the second record, appends both log lines and adds 2 to the progress counter |
| Session.Game.CompleteStage | App.tsx:143-158 | a stage's completion moves one phase forward along the fixed order, with the transition's effect on stats, history and progress |
| Session.Game.Restart | App.tsx:164 | restart returns to the intro phase with the initial stats, no history and progress 0, and keeps the music flag |
| Session.PlaySession | App.tsx:102-164 | start followed by the four completions ends in the result phase with the last stage's record, the four log lines in order and progress 4 |
| Desert.Award | components/Level1Desert.tsx:60-61 | the award is the floor of base × (1 + combo/10), times 3/2 when more than five seconds were left, and is never below the base |
| Desert.Step | components/Level1Desert.tsx:51-73 | a positive answer (a "yes", or a "no" on the fear question) raises the combo by one and adds at least the base; a negative one adds nothing and resets the combo; the max combo is lifted to the combo when it is larger |
| Desert.ReplayAppend | components/Level1Desert.tsx:72-75 | one more answer updates the tally by one more step |
| Desert.ComboIsStreak | components/Level1Desert.tsx:62-70 | the combo always equals the number of positive answers since the last negative one |
| Desert.ScoreIsTotal | components/Level1Desert.tsx:72-73 | the running score is the sum of the points each answer earned from the streak before it |
| Desert.ScoreMonotone | components/Level1Desert.tsx:72-73 | the score never decreases as answers are added |
| Desert.MaxComboBounds | components/Level1Desert.tsx:62-66 | the max combo is at least every streak reached along the way, the current combo included |
| Desert.MaxComboAttained | components/Level1Desert.tsx:62-66 | the max combo is one of the streaks reached, so it is the longest streak |
| Desert.DesertRecord | components/Level1Desert.tsx:83-95 | the record sets quizScore to the total, gold to ten times the total (replacing the old gold), comboMultiplier to 1, the given max combo, and the analysis (first answer, the problem chosen by total < 200, the goal "Improvement", the total); every other field is copied |
| Desert.DesertQuiz.constructor | components/Level1Desert.tsx:33-38 | the stage starts on question 0 with zero score, combo and max combo, ten seconds and no answers |
| Desert.DesertQuiz.Tick | components/Level1Desert.tsx:40-45 | the clock goes down by one second and stops at zero; nothing else changes |
| Desert.DesertQuiz.ScoreAnswer | components/Level1Desert.tsx:48-73 | the handler's polarity, award and combo updates are exactly one step of the tally, using the combo from before the answer |
| Desert.DesertQuiz.Answer | components/Level1Desert.tsx:47-97 | the answer is appended; the cells stay equal to the replay of all answers; before the last question the index advances and the clock resets to 10; on the last question the stage completes with the record and log built from the new total and the max combo read before this answer |
| Arena.Clamped | components/Level2Arena.tsx:95-96 | hit points after a hit are hp − damage when that is positive, and 0 exactly when the damage is at least the hp |
| Arena.ScenarioShape | components/Level2Arena.tsx:10-51 | there are five scenarios of three responses each |
| Arena.EnemyOutlastsThreeScenarios | components/Level2Arena.tsx:95-108 | one response to each of the first three scenarios leaves the enemy at least 15 of its 100 HP |
| Arena.StandingPreserved | components/Level2Arena.tsx:64-121 | from a standing battle (player HP positive, enemy HP at least what the earlier scenarios can take, with at most one defeat per scenario), every response of every scenario, whether it defeats the player, advances or wins, leaves the battle standing, and none on the first three scenarios is a victory |
| Arena.ArenaRecord | components/Level2Arena.tsx:110-118 | the victory record adds twice the HP from before the final action to quizScore, sets hp to the HP after it, adds 500 gold and sets the enemy HP to 0; every other field is copied |
| Arena.Battle.constructor | components/Level2Arena.tsx:54-62 | the enemy starts at 100, the player at the incoming hp or 100 when that is 0, with the shield unarmed; an incoming hp of 0 or more starts the battle standing |
| Arena.Battle.ArmShield | components/Level2Arena.tsx:146-147 | arming sets the shield flag and changes nothing else; it can be armed again after a use, and a standing battle stays standing |
| Arena.Battle.Act | components/Level2Arena.tsx:64-121 | an armed shield absorbs positive self-damage and is used up, and stays armed when there is none; both HPs are clamped at 0; a player at 0 recovers to 50 on the same scenario; otherwise the index advances unless this was the last scenario or the enemy fell, in which case the stage completes with the victory record; the player's HP stays positive; a standing battle stays standing, and its victory comes only from the fourth or fifth scenario, so however many defeats come first the battle cannot end before the fourth scenario |
| Boss.PoolShape | components/Level3Boss.tsx:10-81 | the pool has seven puzzles with ids 1 to 7, each with three options scoring between −10 and 20 |
| Boss.Sample | components/Level3Boss.tsx:89-94 | the sample is three puzzles of the pool with distinct ids |
| Boss.TitleFor | components/Level3Boss.tsx:106-108 | the title is the top one exactly when the total is over 300, the middle one exactly for 151 to 300, and the apprentice title exactly for 150 or less |
| Boss.TitleMonotone | components/Level3Boss.tsx:106-108 | a higher total never gives a lower title |
| Boss.TitleBoundaries | components/Level3Boss.tsx:106-108 | with strict comparisons, 150 gives the lowest title, 151 and 300 the middle one, and 301 the top one |
| Boss.AssignTitle | components/Level3Boss.tsx:106-108 | the handler's default title and two overriding thresholds give the title above |
| Boss.SumBounds | components/Level3Boss.tsx:96-98 | n option scores in [−10, 20] add up to between −10n and 20n |
| Boss.BossRecord | components/Level3Boss.tsx:111-116 | the record adds the round score to quizScore, sets the title and moves gold by ten times the round score, down for a negative round; every other field is copied |
| Boss.BossQuiz.constructor | components/Level3Boss.tsx:84-94 | mounting fixes the sample from a shuffle of the pool, with the index and round score at 0 |
| Boss.BossQuiz.AddScore | components/Level3Boss.tsx:96-98 | the chosen option's score is appended to the round, the round score stays the sum of the chosen scores, and after three choices it is between −30 and 60 |
| Boss.BossQuiz.Choose | components/Level3Boss.tsx:96-118 | a choice adds that option's signed score to the round score; the index advances until the last sampled puzzle, where the stage completes with the new total, the title for it and the gold change; after three choices the round score is between −30 and 60 |
| Pitch.Normalised | components/Level4Pitch.tsx:105 | the normalised score is the floor of peak × 100 / 150, capped at 100 |
| Pitch.NormalisedMonotone | components/Level4Pitch.tsx:105 | a louder peak never normalises to less |
| Pitch.FinalScore | components/Level4Pitch.tsx:105-106 | the simulated path scores 85; otherwise the normalised peak, with anything below 40 replaced by 50 and 40 itself kept; the score is always between 40 and 100 |
| Pitch.MercyFloorNotMonotone | components/Level4Pitch.tsx:106 | because of the mercy floor, peak 58.5 scores 50 while the louder 60 scores 40 |
| Pitch.CapturedPeakScore | components/Level4Pitch.tsx:74-106 | the peak captured before recording (0) scores the mercy 50, while a live peak at full scale would score 100 |
| Pitch.PitchRecord | components/Level4Pitch.tsx:111-117 | the record adds five times the score to quizScore, stores the score as the voice score and adds 200 gold; every other field is copied |
| Pitch.PitchGainBounds | components/Level4Pitch.tsx:105-111 | whatever the peak, the stage adds between 200 and 500 to quizScore |
| Pitch.PitchStage.constructor | components/Level4Pitch.tsx:10-14 | the stage starts idle and not recording, with ten seconds and a zero peak |
| Pitch.PitchStage.StartRecording | components/Level4Pitch.tsx:21-44 | the record button starts recording and the ten-step countdown, the real one with a microphone and the simulated one without; the peak, the shown time and the score are unchanged |
| Pitch.PitchStage.Sample | components/Level4Pitch.tsx:83-84 | the peak becomes the larger of itself and the frame's level, so it only grows; nothing else changes |
| Pitch.PitchStage.Tick | components/Level4Pitch.tsx:57-66 | each second takes one off the countdown; it finishes exactly on the tenth tick, which stops recording and moves to processing with the final score of the current peak (85 on the simulated path); before that the stage keeps recording and the score is unchanged; the peak and the path never change |
| Pitch.PitchStage.Settle | components/Level4Pitch.tsx:108-119 | after processing the stage is done, not recording and otherwise unchanged, and completes with the pitch record and log line of the final score of the peak, whose quizScore gain is between 200 and 500 |
| Pitch.FullScalePitch | components/Level4Pitch.tsx:21-119 | a microphone recording whose frame reaches the full-scale level 150 ends, after the ten-second countdown and processing, with voice score 100, a log line of 100 and a quizScore gain of 500 |
| Results.PlayerEntry | components/ResultScreen.tsx:41-47 | the player's entry has the quiz score, the stats' title and the player flag, and the default name when the name is empty |
| Results.InsertStablePerm | components/ResultScreen.tsx:49 | inserting an entry adds exactly that entry to the board's contents |
| Results.InsertStableBound | components/ResultScreen.tsx:49 | when the board and the new entry all score at most some bound, so does every entry after the insertion |
| Results.InsertStableSorted | components/ResultScreen.tsx:49 | inserting into a descending board keeps it descending |
| Results.SortDescSorted | components/ResultScreen.tsx:49 | the sort gives a board with non-increasing scores |
| Results.SortDescPerm | components/ResultScreen.tsx:49 | the sort's result is a permutation of its input: no entry is lost or added |
| Results.InsertStablePosition | components/ResultScreen.tsx:49 | on a descending board a new entry lands right after every entry that scores at least as much, so on equal scores it comes after the existing entry |
| Results.SortDescIdentity | components/ResultScreen.tsx:49 | sorting a board that is already descending leaves it as it is, the order of ties included |
| Results.MergedShape | components/ResultScreen.tsx:49 | sorting a descending board with one entry appended gives the board in order with that entry inserted after every entry that scores at least as much |
| Results.MergedEntries | components/ResultScreen.tsx:49 | the same, position by position: the entries above the new one's place, the new one, then the rest shifted down by one |
| Results.PlayerPlacements | components/ResultScreen.tsx:13-19 | 2800 places after two fixed entries; a tie with the second (2950) also places after two; 3201 places first; 0 places last |
| Results.AssignRanks | components/ResultScreen.tsx:50 | every entry's rank becomes its position plus one and nothing else about it changes |
| Results.RankEntries | components/ResultScreen.tsx:50 | the ranked board holds the same entries in the same order, each ranked by its position plus one |
| Results.MergeAndRank | components/ResultScreen.tsx:49-50 | merging an entry into a descending board and re-ranking gives a board one longer, ranked from 1, with non-increasing scores, the board's entries in order and the new entry after every one that scores at least as much |
| Results.BuildLeaderboard | components/ResultScreen.tsx:40-51 | the board has six entries with ranks 1 to 6 and non-increasing scores; they are the sorted merge of the fixed entries and the player, with the player at the position after every fixed entry that scores at least as much |
| Results.ReportFileName | components/ResultScreen.tsx:106 | the file name is the prefix `Yalda_Report_`, the player's name and `.txt`, and the name can be read back from it |
| Results.ReportFileNameInjective | components/ResultScreen.tsx:106 | different names give different file names |
| Results.ResultScreen.constructor | components/ResultScreen.tsx:21-51 | on mount the board is rebuilt with the player, the wheel is still, there is no prize and the chest is locked |
| Results.ResultScreen.SpinWheel | components/ResultScreen.tsx:62-64 | a spin starts only when the wheel is still and no prize exists, so at most one prize is ever drawn |
| Results.ResultScreen.WheelStops | components/ResultScreen.tsx:84-89 | the wheel stops on one of the six listed prizes, and it is the first and only one drawn |
| Results.ResultScreen.UnlockChest | components/ResultScreen.tsx:112-124 | the invite unlocks the chest, and nothing ever locks it again |
| Intro.Request | components/IntroScreen.tsx:19-22 | the start hands something on exactly when name, phone and class are all present, and then it hands on exactly those three |
| Intro.IntroForm.constructor | components/IntroScreen.tsx:9-13 | the form starts on the info step with empty fields, no class and no fade |
| Intro.IntroForm.EditName | components/IntroScreen.tsx:72 | typing in the name field replaces the name only |
| Intro.IntroForm.EditPhone | components/IntroScreen.tsx:83 | typing in the phone field replaces the phone number only |
| Intro.IntroForm.Next | components/IntroScreen.tsx:15-17 | the form moves to the class step exactly when both name and phone are non-empty |
| Intro.IntroForm.SelectClass | components/IntroScreen.tsx:115-141 | choosing a class replaces any previous choice, so exactly one class is held |
| Intro.IntroForm.StartGame | components/IntroScreen.tsx:19-23 | start does nothing unless name, phone and class are set; otherwise it sets the fade flag and hands on exactly the entered values, and on the class step a chosen class always suffices |

## Findings

| source | as written | input that shows it | evidently intended | confidence | as-written member | corrected member |
|---|---|---|---|---|---|---|
| components/Level4Pitch.tsx:75 | on the microphone path, the frame loop checks the "recording" flag captured before recording began, which is false, so the peak is never updated. The countdown's callback then reads the peak captured at the same moment, which is 0 | microphone granted and every frame at level 150: the score is 50 | the score of the loudest level heard, 100 for this input | not executed; high (a React state value read inside a callback is the one from the render that created the callback) | Pitch.CapturedPeakScore | Pitch.FullScalePitch |

The rest of the model uses the corrected behaviour. Each frame raises the live
peak (`Pitch.PitchStage.Sample`), and the final tick scores the current peak
(`Pitch.PitchStage.Tick`), so a recording heard at full scale scores 100 (`Pitch.FullScalePitch`). A louder peak never scores less below the mercy
floor or above it (`Pitch.NormalisedMonotone`).

## Left out

- The report text: `generateStaticReport` comes from `services/analysisEngine`. services/analysisEngine is not part of this model, so the report is not modelled; only its file name is.
- services/geminiService.ts: a wrapper around an external text-generation client, with nothing local to prove.
- components/GameHUD.tsx and components/LoadingScreen.tsx: they only display state.
- Delays and the loading overlay: each `setTimeout` is folded into its event as one atomic step, except the three intermediate states listed above.
  - The controller never checks `isLoading`, so no re-entrancy rejection is modelled.
  - A completion callback that fires twice sets the same next phase again, appends a second history line and adds 1 more to the progress counter (`Session.Game.CompletionFiredTwice`); nothing rejects the second firing.
  - A second answer or choice on the last question of stage 1 or 3 completes again.
- Browser side effects are not modelled: audio playback and its failure, microphone and Web Audio capture, animation frames, confetti, alerts, shaking and feedback banners, the bar visualisation, WhatsApp links, the Blob download itself and the parallax mouse math.
- Floating point is replaced by exact forms, which could differ from JS doubles only where a double rounds at an integer boundary.
  - Stage 1's award is `floor(base·(10+combo)·3/20)` for a fast answer and `floor(base·(10+combo)/10)` for a slow one.
  - Stage 4 normalises a `real` peak.
- Randomness becomes parameters:
  - the stage 3 shuffle is any permutation of the pool (`Boss.IsShuffle`), standing for the random comparator's outcome;
  - the prize is an index below 6 (`Results.ResultScreen.WheelStops`);
  - the simulated path's random bars are display only.
- History lines are `LogEntry` values carrying the interpolated numbers; the rendering of numbers into the template strings is not modelled.
- The fear question is identified by its position (the seventh). The source tests its text for a substring, which matches that question only.
- Results.AssignRanks: it ranks a fresh array. The source ranks the sorted array's objects in place, and those objects are shared with the fixed board constant; the model does not capture that aliasing.
- The wheel's rotation angle and the victory modal and tab switching: display state with no effect on the game.
- The timer effect of stage 1 is modelled as a tick on the current question. Restarting the interval on each index change is folded into the reset to 10 in `Desert.DesertQuiz.Answer`.
- Arena.Battle.constructor: the battle is shown standing only for an incoming hp of 0 or more. A negative hp is never handed on (the session starts at 100 or 120 and stage 1 copies hp), and with one any response would defeat the player.
