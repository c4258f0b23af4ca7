# Verified model of the Pono touch screen

A Dafny model of the logic behind a 3D printer's touch UI, with proofs about every input, every
run and every reachable state. `dafny verify dfyconfig.toml` checks the whole project.

Six parts are modelled.

* **The cockpit** (`Cockpit`, `CockpitSafety`, `CockpitClaims`, `CockpitCover`, `CockpitReports`,
  `MainPanelObject`, `TopLayer`, `FileList`). The websocket thread and the UI thread act on one state
  under one lock, so each locked section is one atomic event and a run is any finite sequence of
  events in any order. The
  state holds the cached printer fields, the temperature labels and their render shadows, the busy
  scrim with its watchdog, the calibration overlay flag, the narration logbook, the pending
  confirm, the notice, the top-layer child order, the file list with its metadata requests, the
  stale flag and the install chip, and a log of dispatched commands, each stamped with the cached
  state it was dispatched in. `Cockpit` describes a step by observation (what is dispatched, what is asked, what is shown).
  `MainPanelObject.MainPanel` is the object whose handlers change its fields in the program's
  order; every handler is proved to take the step `Cockpit` describes, so each claim about runs
  is a claim about the object. `CockpitReports` says the claims from the outside, of what the printer
  reported and the operator tapped.
* **The connect handshake** (`Connection`): the boot screen, the 32-bit connection epoch, and
  replies that outlive their link. The epoch bump happens outside the lock and is its own step.
* **Touch calibration** (`TouchSolver`, `TouchScreen`, `CalibrationScreen`): the three-point affine
  solver over the reals, the step machine with its timers, and the input driver.
* **The INI loader** (`IniConfig`, `IniValues`, `IniMeaning`, `IniRoundTrip`, `IniMarks`,
  `IniLines`): the one-pass loader, a block-by-block meaning it is proved equal to, what the text of
  a value means, the printed form that loads back, and exactly which values do.
* **The temperature filter and the console** (`TempFilter`, `TempReports`, `Console`).
* **Small parsers** (`CalMessage`, `PathGuard`) over shared text functions (`Text`).

## What turned out to be false, and when it holds

* A metadata reply from an earlier list is recognised by a 32-bit counter. It touches no row unless a
  positive multiple of 2^32 rebuilds lies between (`FileList.LateMetaIgnored`); a run of exactly such
  a number of rebuilds makes it write to a row that is gone (`CockpitClaims.LateMetaRun`).
* The same holds for a subscribe reply and the number of disconnects (`Connection.LateReplyIff`, with
  the runs in `Connection.LateRevealRun`). Such a reply of a dead link still seeds the cockpit's
  caches; only the reveal of the cockpit is guarded (`Connection.LateReplySeeds`).
* An active calibration does not imply a visible scrim: the watchdog, a prompt and a failed update
  drop the scrim without clearing the overlay flag (a run: `CockpitClaims.CalibrationWithoutScrim`).
  `CockpitClaims.CalibrationScrimIff` says exactly when the scrim is visible after a delta.
* An open question, even the E-STOP's own, need not be answerable: the busy scrim, a notice and the
  keypad bring full-screen children over its card (a run: `CockpitClaims.ScrimCoversEStopQuestion`),
  and the keepalive leaves them there. It is answerable if and only if no full-screen child lifted
  since the question was asked is up, and then every point of the card takes taps
  (`CockpitCover.QuestionAnswerableIff`). The narration strip also rises above the card in the child
  order, but lies below it on the panel and never blocks it (`CockpitCover.NarrationNeverBlocks`).
  `CockpitCover.CardOnTopIff` is the exact condition for the card to be the topmost child after one
  event, and `CockpitCover.ScrimCoversIff` says the scrim covers a question exactly while it is
  visible and was shown since then.
* Load does not purge the length shown on the Filament screen until its slider is first moved: it
  sends 100 mm under a readout of 200 (`CockpitClaims.LoadDisagreesAtStart`). It does if and only if
  the slider has ever been moved (`CockpitClaims.LoadPurgesLengthShown`).
* A comment at src/main_panel.cpp:327 promises that a starting print never leaves the install chip up.
  It can: a subscribe reply sets the job without hiding it (a run: `CockpitClaims.ChipOverJobRun`), and
  that is the only way (`CockpitClaims.ChipNeverOverJobIff`). The dispatch is safe regardless.
* A comment in `rebuild_home` promises that the next delta repaints. It does unless all four cached
  values equal the sentinel (`CockpitClaims.PaintsUnlessSentinel`), and then labels stay wrong
  (`CockpitClaims.SentinelIsNotPainted`).
* The temperature filter's fast reject does not know `T1:` or lower-case labels, so not every
  report is hidden (`TempReports.SecondExtruderShown`); `TempReports.PrintedReportIff` gives the
  exact condition.
* Not every value loads back from the INI file. It does if and only if it is a bool, a 64-bit integer
  other than 0 and 1, or a string that reads as neither and holds no `#`, `;` or newline
  (`IniMarks.ValueLoadsIff`). Quotes do not protect the comment marks: no loaded string ever holds
  one (`IniMarks.LoadedIsClean`, one line in `IniMarks.QuotesDoNotProtect`).
* The bar width computation leaves the C `int` range past 4473924 completed steps
  (`CalMessage.BarWithinPanel`, `CalMessage.BarCanOverflow`).

## Model

| member | source | states |
|---|---|---|
| `CockpitReports.SentCommandsPermitted` | src/main_panel.cpp:978-1269 | every command of every run was sent by an event before which the printer's latest reports permitted it: no jog or home when the latest state is "printing", no M84, calibration or flash when it is "printing" or "paused", pause and resume only in their state, no raw extrude with the latest nozzle report below 170, and every value in its range |
| `CockpitReports.JobFollows` | src/main_panel.cpp:319-325 | over every run the cached job and activity are the latest reported ones, read off the events alone |
| `CockpitReports.TempsFollow` | src/main_panel.cpp:281-284 | over every run the four cached temperatures are the latest reported ones, 0 before the first |
| `CockpitReports.MessageFollows` | src/main_panel.cpp:288-293 | the cached step text is what a delta brings, and is dropped exactly when a delta without one ends a reported activity |
| `CockpitReports.MotionControls` | src/main_panel.cpp:992-1013 | over every run each motion button sends its own command with the latest step, and exactly when the reported state permits it |
| `CockpitReports.FilamentControls` | src/main_panel.cpp:1026-1047 | the same for the filament buttons: the latest material's temperature, the slider's length, the 170 degree rule |
| `CockpitReports.JobControls` | src/main_panel.cpp:604-609 | the same for pause, resume, the two calibration tiers and the stop button |
| `CockpitReports.TilesRefuse` | src/main_panel.cpp:1089-1093 | over a reported job every calibration tile sends nothing and answers with the refusal card |
| `CockpitReports.HeaterControls` | src/main_panel.cpp:1048-1071 | each heater button names its own heater and the temperature on its face |
| `CockpitReports.PresetControls` | src/main_panel.cpp:1219-1244 | each preset, babystep and light button sends what is on its face |
| `CockpitReports.SliderControls` | src/main_panel.cpp:1256-1265 | each slider sends its own percentage to its own actuator |
| `CockpitReports.SettingsFollow` | src/main_panel.cpp:1014-1016 | over every run step, material and load length are the latest ones set |
| `CockpitReports.WorkingScrim` | src/main_panel.cpp:1011-1046 | a button raises the scrim if and only if it sends a command and is one of those that keep the printer busy |
| `CockpitReports.ConfirmedActionSends` | src/main_panel.cpp:720-767 | tap E-STOP, cancel, a power button or a calibration tile, let anything happen that neither answers nor replaces the question, confirm: exactly that action goes out, and a calibration only when no job is reported at that moment, with a notice otherwise |
| `CockpitReports.ConfirmedInstallSends` | src/main_panel.cpp:1160-1172 | the same for an offered update |
| `CockpitReports.PendingShows` | src/main_panel.cpp:1171 | confirming raises the scrim for power actions and the update, with their own text, and for nothing else |
| `CockpitReports.PowerWarns` | src/main_panel.cpp:1206-1213 | a power question carries the job warning if and only if a job is reported |
| `CockpitReports.InstallAsksIff` | src/main_panel.cpp:1160-1165 | the install button asks if and only if the latest check found a version and no job is reported |
| `CockpitReports.StartFailureShown` | src/main_panel.cpp:1285-1293 | a refused start is shown with its reason |
| `CockpitReports.NoticeRaisedIff` | src/main_panel.cpp:590-595 | exactly which events raise a notice |
| `CockpitReports.NoticeStep` | src/main_panel.cpp:747-757 | the notice is up from such an event to the tap that dismisses it |
| `CockpitReports.DeclineSendsNothing` | src/main_panel.cpp:759-767 | declining sends nothing and leaves nothing to confirm |
| `CockpitReports.CardNamesFile` | src/main_panel.cpp:1276-1279 | the card names a file by its last path component, cut past 38 characters |
| `CockpitReports.KeypadSendsItsField` | src/main_panel.cpp:1080-1082 | the keypad sends to the field it was last opened for, whatever happened meanwhile |
| `CockpitClaims.CommandsAreSafe` | src/main_panel.cpp:978-1269 | the same in terms of the cached state stamped on each command; printing and paused are never both set |
| `CockpitClaims.SentByAnEvent` | src/main_panel.cpp:759-767 | every log entry is the dispatch of one event of the run, stamped with the cached state just before that event |
| `CockpitSafety.DispatchAllowed` | src/main_panel.cpp:992-1047 | in any state with at most one of printing and paused set, whatever an event dispatches is allowed there |
| `CockpitSafety.TapAllowed` | src/main_panel.cpp:1005-1108 | the guards of the tap handler suffice for every button |
| `CockpitSafety.KeypadAllowed` | src/main_panel.cpp:1229-1233 | whatever number is typed, the value sent is in range |
| `CockpitSafety.SliderAllowed` | src/main_panel.cpp:1247-1269 | whatever a slider is dragged to, the value sent is in range; the speed slider is held to 50..200 and the fan sliders to 0..100 |
| `CockpitClaims.TypedValueIsNearest` | src/main_panel.cpp:1229-1233 | a typed number becomes, of all the legal whole values of its own field, one closest to it; advance is held to 0..1 and the offset sent as typed |
| `CockpitClaims.TypedInRange` | src/main_panel.cpp:1229-1233 | a whole number in range is sent as typed |
| `CockpitClaims.NudgeMovesTarget` | src/main_panel.cpp:1072-1079 | a nudge moves its own heater's legal target by 5 degrees in its direction, or to the end of the range |
| `CockpitClaims.MaterialHeatsForLoad` | src/main_panel.cpp:1029-1056 | after a material is tapped, Load and Unload run at the very temperature it was preheated to |
| `CockpitClaims.LoadPurgesLengthShown` | src/main_panel.cpp:1251-1255 | over every run, Load sends the length shown beside the slider if and only if the slider has ever been moved |
| `CockpitClaims.LoadDisagreesAtStart` | src/main_panel.h:181 | on a fresh panel Load sends 100 mm while 200 mm is shown |
| `CockpitSafety.ActionAllowed` | src/main_panel.cpp:1118-1132 | a confirmed action that dispatches is allowed in the state at dispatch, not at the tap |
| `CockpitSafety.JobStays` | src/main_panel.cpp:319-330 | no event sets printing and paused together |
| `CockpitSafety.RunInv` | src/main_panel.cpp:235-481 | every reachable state keeps the whole invariant: job flags, command log, scrim, confirm, logbook, labels, child order and file list |
| `CockpitSafety.NextInv` | src/main_panel.cpp:235-481 | any event from any state keeps that invariant |
| `CockpitSafety.InitialInv` | src/main_panel.cpp:508-540 | the panel as built satisfies it |
| `CockpitSafety.ScrimStays` | src/pono_anim.cpp:79-124 | the scrim is visible exactly while its watchdog is armed, and the watchdog stays below 180 s |
| `CockpitSafety.OpensMatching` | src/main_panel.cpp:740-745 | every question that opens names the very action that confirming it runs |
| `CockpitSafety.ConfirmStays` | src/main_panel.cpp:740-767 | the card is up exactly while an action is pending, and it asks about that action |
| `CockpitSafety.LogStays` | src/main_panel.cpp:187-203 | logbook and box are shown together, a fault implies shown, and the box shows the parse of the step text or an alarm with the same count |
| `CockpitSafety.PaintStays` | src/main_panel.cpp:332-381 | either a repaint is due or the labels are what painting the shadows writes |
| `CockpitSafety.LayerStays` | src/main_panel.cpp:730-767 | children stay distinct and complete, an open question stays above its scrim and the scrim above the E-STOP |
| `CockpitClaims.KeepaliveRescues` | src/main_panel.cpp:730-738 | after any run, a keepalive tick leaves the E-STOP topmost if and only if no question is open, and does not touch the question |
| `CockpitClaims.QuestionAboveEStop` | src/main_panel.cpp:740-745 | after any run with a question open, card above scrim above E-STOP |
| `CockpitClaims.LayerOnlyGrows` | src/pono_anim.cpp:109-110 | after any run, no event removes or duplicates a top-layer child; exactly the busy scrim and the log box are added, when first shown |
| `CockpitClaims.ScrimCoversQuestion` | src/pono_anim.cpp:109-116 | a delta that shows the scrim over an open question leaves it on top through the next keepalive |
| `CockpitCover.CoverStep` | src/main_panel.cpp:740-767 | exactly which child is above the card after any event that leaves a question open: what the event lifts, and what was above and is not sunk; nothing when the event asks |
| `CockpitCover.CardOnTopIff` | src/main_panel.cpp:740-767 | the card is topmost after an event if and only if the event asks, or lifts nothing and sinks whatever covered the card; dismissals included |
| `CockpitCover.CoveredIff` | src/main_panel.cpp:740-767 | after any run, a question and any events that neither answer nor replace it: the question is still the one asked, and exactly the children lifted since and not sunk are above its card |
| `CockpitCover.QuestionAnswerableIff` | src/pono_home.cpp:1138-1164 | in that situation both buttons take taps if and only if no full-screen child lifted since is up; every point of the card takes taps then, and none otherwise |
| `CockpitCover.AnswerableWhen` | src/pono_anim.cpp:87-110 | the same child by child: answerable if and only if neither a visible scrim nor a notice nor the keypad was lifted since |
| `CockpitCover.ReachesIff` | src/pono_home.cpp:1149-1160 | the same for one point of the card |
| `CockpitCover.NarrationNeverBlocks` | src/pono_anim.cpp:233-237 | however often the narration strip redraws, a question stays answerable while no full-screen child is lifted |
| `CockpitCover.NarrationOverQuestion` | src/pono_anim.cpp:318-319 | an event that draws the strip puts it above the card in the child order and leaves both buttons free |
| `CockpitCover.ScrimCoversIff` | src/pono_anim.cpp:87-117 | the scrim covers an open question exactly while it is visible and was shown since the question was asked |
| `CockpitClaims.ScrimCoversEStopQuestion` | src/main_panel.cpp:720-738 | a concrete run in which the scrim covers the E-STOP's own question |
| `TopLayer.RaiseAbove` | src/main_panel.cpp:743-750 | raising a child puts it above another and changes nothing else about what is above that one |
| `TopLayer.LowerAbove` | src/main_panel.cpp:755-764 | lowering a child takes it from above another and changes nothing else about what is above that one |
| `TopLayer.TopmostIff` | src/main_panel.cpp:734-737 | a child is last if and only if no other is above it |
| `TopLayer.MovesReorder` | src/main_panel.cpp:743-756 | foreground and background moves permute the children or append one, as multisets |
| `TopLayer.MovesKeepOrder` | src/main_panel.cpp:743-756 | moving one child never changes the order of two others |
| `CockpitReports.LabelsShowReports` | src/main_panel.cpp:332-381 | after any run and one delta that does not flip the layout, each nozzle and bed label on the three screens shows its own latest reported value, and "off" for a target of 0 or below |
| `CockpitReports.HomeShowsReports` | src/pono_home.cpp:131-149 | after any status message the home labels show the latest reported values |
| `CockpitClaims.LabelsAgree` | src/main_panel.cpp:323-381 | after any run and one delta that does not flip the layout, all nozzle and bed labels equal an unconditional repaint, unless all four values are the sentinel |
| `CockpitClaims.DeltaPaints` | src/main_panel.cpp:332-381 | the same for one delta from any state whose labels paint their shadows or await a repaint |
| `CockpitClaims.HomeLabelsAgree` | src/main_panel.cpp:1366-1398 | the home labels are right after every status message, flips and reconnects included |
| `CockpitClaims.PaintsUnlessSentinel` | src/main_panel.cpp:1394-1396 | after a rebuild the next delta changes nothing if and only if the four values are the sentinel |
| `CockpitClaims.SentinelIsNotPainted` | src/main_panel.cpp:336-381 | a run after which the Temps labels differ from a repaint |
| `CockpitReports.FlipForcesRepaint` | src/main_panel.cpp:1394-1396 | a rebuild resets all four shadows and leaves the other screens' labels to the next delta |
| `CockpitReports.NarrationIff` | src/main_panel.cpp:463-479 | after any run ending in a delta the box is visible if and only if activity or a print is reported and the step text begins with Make Pono or Full Cal |
| `CockpitReports.NarrationShowsStep` | src/pono_anim.cpp:303-319 | a printed step is drawn as printed: the step, the next one, the count and the bar of that count |
| `CockpitReports.AlarmSays` | src/main_panel.cpp:191-197 | ten seconds of silence turn the box into an alarm that tells the whole seconds and keeps the total |
| `CockpitClaims.NarrationFollows` | src/main_panel.cpp:463-479 | after any run ending in a delta, the box is visible if and only if a Make Pono or Full Cal run is active, a fault implies visible, and without one it shows the parse of the cached text with the clamped count |
| `CockpitClaims.DeltaNarrates` | src/main_panel.cpp:463-479 | the same for one delta from any consistent logbook |
| `CockpitClaims.ContactRestoresStep` | src/main_panel.cpp:191-203 | losing contact raises the alarm over the same count, and contact restores the box of the cached text |
| `CockpitClaims.StaleFlagIff` | src/main_panel.cpp:173-186 | over every run the dashboard's stale flag is up if and only if the latest check or delta was a check that found a live machine silent for 10 s |
| `CockpitReports.ChipOfferedIff` | src/main_panel.cpp:964-972 | the chip is offered if and only if a newer version is found and no job is reported |
| `CockpitReports.ChipHidden` | src/main_panel.cpp:907-914 | exactly what hides the chip: a new check, a failed update, a delta that loads a job |
| `CockpitClaims.ChipStep` | src/main_panel.cpp:323-330 | the install chip comes to stand over a loaded job exactly when a subscribe reply reports the job while the chip is up |
| `CockpitClaims.ChipNeverOverJobIff` | src/main_panel.cpp:157-159 | in every run the chip is hidden under every job if and only if no subscribe reply reports a loaded job while it is up |
| `CockpitClaims.ChipOverJobRun` | src/main_panel.cpp:157-162 | a run that leaves the chip up over a print; a tap on it still asks nothing |
| `CockpitClaims.ReplyThenCalibrationReshows` | src/main_panel.cpp:553-557 | after a manual action's reply, the next delta of an active calibration shows the scrim with the step text |
| `CockpitClaims.CalibrationScrimIff` | src/main_panel.cpp:444-455 | the exact condition under which a delta of an active calibration leaves a visible scrim |
| `CockpitClaims.CalibrationWithoutScrim` | src/pono_anim.cpp:82-85 | a run with an active calibration, its overlay flag set and no visible scrim |
| `CockpitReports.CalibrationOverlayIff` | src/main_panel.cpp:444-455 | after a delta the calibration overlay is on if and only if activity is reported, no print, no prompt, and the step text begins with Calibrating |
| `CockpitReports.PromptFollows` | src/prompt_panel.cpp:290-299 | the prompt flag is the latest of shown, ended and link lost |
| `CockpitReports.ScrimFate` | src/pono_anim.cpp:82-124 | exactly what takes a visible scrim down |
| `CockpitReports.ScrimLasts` | src/pono_anim.cpp:111-116 | nothing else does before its 180 s |
| `CockpitReports.LinkLossResets` | src/main_panel.cpp:563-571 | a lost link drops every overlay and the activity and keeps the job, the question and the log |
| `CockpitClaims.ScrimAges` | src/pono_anim.cpp:111-116 | while nothing shows the scrim again, a visible scrim's watchdog has advanced by exactly the timer time of the run |
| `CockpitClaims.ScrimExpires` | src/pono_anim.cpp:79-124 | in every run the scrim is gone once 180 s of timer time have passed since its latest show |
| `CockpitClaims.QuestionStands` | src/main_panel.cpp:740-767 | background events of any number and kind change neither the open question nor the command log |
| `CockpitClaims.RowAsksItsFile` | src/main_panel.cpp:1271-1279 | in a valid list, tapping a row asks about that row's own path and sends nothing |
| `CockpitClaims.QuestionKept` | src/main_panel.cpp:740-767 | no event changes an open question unless it answers it or asks another |
| `CockpitClaims.ConfirmedPrintIsTheOneAsked` | src/main_panel.cpp:1271-1296 | tap a row, let anything happen that neither answers nor replaces the question, rebuilds, taps, sliders and keypad included, confirm: the confirming event sends exactly one command and it starts the file that was on the row |
| `CockpitClaims.NoDanglingRow` | src/main_panel.cpp:1298-1353 | in every run with fewer than 2^32 list replies no metadata reply writes to a row that is gone, and each row's stored index is its own |
| `CockpitClaims.GenerationCounts` | src/main_panel.cpp:1306 | the generation counts the list replies of the run |
| `CockpitClaims.LateMetaRun` | src/main_panel.cpp:1306-1329 | for every n, one file, n rebuilds and then its metadata: the reply writes to the vanished row if and only if 2^32 divides n |
| `FileList.RebuildShowsFirstForty` | src/main_panel.cpp:1310-1314 | the list shows, in order, exactly the entries with a path among the first forty |
| `FileList.RebuildValid` | src/main_panel.cpp:1304-1348 | rebuilding keeps rows, indices and requests in agreement and turns all older requests stale |
| `FileList.MetaValid` | src/main_panel.cpp:1327-1346 | a metadata reply keeps them in agreement |
| `FileList.MetaReachesItsRow` | src/main_panel.cpp:1327-1346 | a reply of the current list writes to exactly the row that shows its path and to nothing else |
| `FileList.LateMetaIgnored` | src/main_panel.cpp:1329 | a reply of an older list touches no row; it writes to a vanished one if and only if the 32-bit generation has come round |
| `MainPanelObject.MainPanel.Init` | src/main_panel.cpp:143-170 | seeding from the subscribe reply is the `Subscribed` step |
| `MainPanelObject.MainPanel.Consume` | src/main_panel.cpp:277-480 | the whole delta handler, in order, is the `Delta` step |
| `MainPanelObject.MainPanel.ResetOverlayState` | src/main_panel.cpp:563-571 | the reset on a lost link is the `LinkLost` step |
| `MainPanelObject.MainPanel.StaleChecked` | src/main_panel.cpp:173-204 | the whole check, dashboard flag and lost-contact alarm, is the `StaleCheck` step |
| `MainPanelObject.MainPanel.OnTap` | src/main_panel.cpp:978-1244 | the tap handler is the `Tap` step for every button |
| `MainPanelObject.MainPanel.ConfirmTapped` | src/main_panel.cpp:759-767 | hide, sink, run if confirmed, forget: the `ConfirmTap` step |
| `MainPanelObject.MainPanel.PerformChecked` | src/main_panel.cpp:1118-1171 | a calibration or flash confirmed over a job that started meanwhile sends nothing and shows a notice |
| `MainPanelObject.MainPanel.RowTapped` | src/main_panel.cpp:1271-1296 | the row handler is the `RowTap` step |
| `MainPanelObject.MainPanel.ListReply` | src/main_panel.cpp:1301-1349 | the rebuilding loop yields the rebuilt list: at most 40 entries, pathless ones skipped, one request per row |
| `MainPanelObject.MainPanel.MetaReplied` | src/main_panel.cpp:1327-1346 | a metadata reply is dropped on a generation mismatch and otherwise written to the row it captured |
| `MainPanelObject.MainPanel.ValueTap` | src/main_panel.cpp:1048-1079 | a button that only sends a value sends that one command and opens, shows and lifts nothing |
| `MainPanelObject.MainPanel.PauseTap` | src/main_panel.cpp:604-609 | resume when paused, pause when printing, nothing otherwise |
| `MainPanelObject.MainPanel.SliderMoved` | src/main_panel.cpp:1256-1265 | releasing a slider is its step |
| `MainPanelObject.MainPanel.KeypadOkTapped` | src/numpad.cpp:126-132 | accepting the keypad sends its field's command and sinks the keypad |
| `MainPanelObject.MainPanel.KeepaliveTick` | src/main_panel.cpp:730-738 | the keepalive timer is the `Keepalive` step |
| `MainPanelObject.MainPanel.EndCheck` | src/main_panel.cpp:955-974 | the chip is offered only for a newer version on an idle machine |
| `MainPanelObject.MainPanel.StartCheck` | src/main_panel.cpp:907-914 | a check hides the chip, and a second one in flight does nothing |
| `MainPanelObject.MainPanel.UpdateEnded` | src/main_panel.cpp:1180-1193 | the end of an update drops the scrim, a failed one hides the chip, a refused one shows the notice |
| `MainPanelObject.MainPanel.BusyShow` | src/pono_anim.cpp:87-117 | showing raises the scrim and restarts its watchdog from zero |
| `MainPanelObject.MainPanel.BusyHide` | src/pono_anim.cpp:119-124 | hiding disarms the watchdog |
| `MainPanelObject.MainPanel.TimersRun` | src/pono_anim.cpp:82-85 | the watchdog drops the scrim at 180 s and leaves the overlay flag alone |
| `MainPanelObject.MainPanel.RebuildHome` | src/main_panel.cpp:1366-1398 | fresh home labels and sentinel shadows |
| `MainPanelObject.MainPanel.Handle` | src/main_panel.cpp:235-767 | every event handled by the object is the machine's step |
| `MainPanelObject.Drive` | src/main_panel.cpp:508-540 | a new panel driven through any events ends in the state the run claims speak of |
| `Connection.RunInv` | src/init_panel.cpp:119-222 | in every run the epoch is the 32-bit count of disconnects begun, and no callback holds a later one |
| `Connection.CallBornAt` | src/init_panel.cpp:127 | in every run each outstanding callback holds the number of disconnects begun before its own connect, counted in the events, and its 32-bit image |
| `Connection.ConnectReveals` | src/init_panel.cpp:119-206 | after any run whatever, a connect whose two replies arrive hides the boot screen at full progress |
| `Connection.NoObjectsWaits` | src/init_panel.cpp:199-204 | a reply without objects ends its handshake and leaves the boot screen as it is |
| `Connection.DisconnectReshows` | src/init_panel.cpp:208-222 | a completed disconnect always brings the boot screen back at its first stage |
| `Connection.ProgressOnce` | src/init_panel.cpp:111-117 | over every run the progress bar has replaced the jokes if and only if it was ever revealed |
| `Connection.HiddenByReply` | src/init_panel.cpp:185-198 | a hidden boot screen was hidden by a subscribe reply that matched the epoch, and no disconnect has completed since |
| `Connection.HiddenOnlyByCurrentLink` | src/init_panel.cpp:189-197 | with fewer than 2^32 disconnects, the reply that hid the boot screen came after the last completed disconnect and was of the connection current then, which is the one current now unless a disconnect is half done |
| `Connection.LateReplyIff` | src/init_panel.cpp:193 | a reply hides the boot screen if and only if the number of disconnects since its connect is a multiple of 2^32 |
| `Connection.LateRevealRun` | src/init_panel.cpp:185-222 | for every n, a link that dies n times before its reply takes the lock: the reply hides the boot screen if and only if 2^32 divides n |
| `Connection.LateReplySeeds` | src/init_panel.cpp:185-193 | a concrete run in which a dead link's reply seeds the caches without hiding the boot screen |
| `Connection.InitPanel.FinishReplied` | src/init_panel.cpp:189-197 | the locked end of the subscribe reply is its step |
| `Connection.InitPanel.ListReplied` | src/init_panel.cpp:128-205 | the object-list reply subscribes with the captured epoch, or waits |
| `Connection.InitPanel.ShowProgress` | src/init_panel.cpp:111-117 | the progress bar replaces the joke timer once |
| `Connection.InitPanel.Handle` | src/init_panel.cpp:119-222 | every event is the machine's step; the bump and the locked re-show are two |
| `Connection.Drive` | src/init_panel.cpp:119-222 | a new panel driven through any events ends in the state the run claims speak of |
| `TouchSolver.FitIsExact` | lv_touch_calibration/lv_tc.c:89-135 | with a non-zero divisor the coefficients map each touched point exactly to its target |
| `TouchSolver.AffineUnique` | lv_touch_calibration/lv_tc.c:89-135 | two affine maps that agree on three non-collinear points are equal |
| `TouchSolver.SolvableIff` | lv_touch_calibration/lv_tc.c:90-95 | for touches made through an affine panel the divisor is non-zero if and only if the panel is invertible and the targets are not collinear |
| `TouchSolver.RecoversPanel` | lv_touch_calibration/lv_tc.c:89-135 | for any invertible affine panel and non-collinear targets, every touch maps back to its screen point exactly |
| `TouchSolver.TransformRecovers` | lv_touch_calibration/lv_tc.c:161-165 | the same after rounding to pixels |
| `TouchSolver.AutoPointsPlaced` | lv_touch_calibration/lv_tc_screen.c:171-182 | where the targets are, by inequalities: margins of 15% of the smaller side, 30% of the height, 40% of the width, each cut to a pixel |
| `TouchSolver.AutoPointsOnGlassIff` | lv_touch_calibration/lv_tc_screen.c:177-181 | all three targets lie on the display if and only if it is at least 7 x 7 |
| `TouchSolver.RoundNearest` | lv_touch_calibration/lv_tc.c:164-165 | rounding goes to the nearest pixel, halves away from zero |
| `TouchSolver.AutoPointsSpread` | lv_touch_calibration/lv_tc_screen.c:171-183 | the automatic targets are not collinear on any display of at least 1x1, truncation included |
| `TouchSolver.AutoCalibrates` | lv_touch_calibration/lv_tc_screen.c:171-183 | on the automatic targets the solver succeeds if and only if the panel is invertible |
| `TouchScreen.FinishedRun` | lv_touch_calibration/lv_tc_screen.c:199-232 | in every run the step stays in 0..4, the crosshair marks the next target, and at the finish step the stored touches are the three accepted since the latest first step, in order, with the coefficients their fit |
| `TouchScreen.RunFaithful` | lv_touch_calibration/lv_tc_screen.c:215-232 | at every step of every run the touch store holds exactly the touches of the current attempt |
| `TouchScreen.CalibrationCompletes` | lv_touch_calibration/lv_tc_screen.c:185-232 | from any state, a start, its delay and three touches with releases between finish the calibration with exactly those touches in order and their fit |
| `TouchScreen.TimeoutRestarts` | lv_touch_calibration/lv_tc_screen.c:295-304 | the timeout restarts the calibration at its thirtieth second and not before |
| `TouchScreen.SavedAreAccepted` | lv_touch_calibration/lv_tc_screen.c:270-283 | over every run exactly the coefficients in force at the accepts are saved, in order |
| `TouchScreen.CursorFollows` | lv_touch_calibration/lv_tc_screen.c:208-211 | after the finish the cursor is where the press is reported |
| `TouchScreen.HeldTouchTakenOnce` | lv_touch_calibration/lv_tc_screen.c:185-207 | a touch still held after being recorded is never recorded again, whatever timers and restarts happen |
| `TouchScreen.RegisteredIff` | lv_touch_calibration/lv_tc_screen.c:77-110 | in every run the screen takes input if and only if a calibration was ever started |
| `TouchScreen.SwallowedUntilFinish` | lv_touch_calibration/lv_tc.c:187-206 | over every run a read is swallowed if and only if a calibration was started, its screen is in front, and it waits for its first step or has fewer than three touches, this one included |
| `TouchScreen.SwallowedBefore` | lv_touch_calibration/lv_tc.c:193-203 | the same from the state before the read |
| `TouchScreen.ReleaseWherePressed` | lv_touch_calibration/lv_tc.c:143-159 | over every run a release that reaches the UI is reported where the latest press that reached it was, by the coefficients in force; swallowed reads do not count |
| `TouchScreen.CompletingTouchLandsOnTarget` | lv_touch_calibration/lv_tc.c:193-205 | the third touch finishes the fit and is itself reported exactly on the third target |
| `TouchScreen.CalibrationRecovers` | lv_touch_calibration/lv_tc_screen.c:215-229 | end to end: after any run that finishes with the targets touched through an invertible affine panel, every later touch is reported at the pixel it was made on |
| `CalibrationScreen.Screen.Step` | lv_touch_calibration/lv_tc_screen.c:215-232 | the step function on the touch buffer, every write in bounds |
| `CalibrationScreen.Screen.Start` | lv_touch_calibration/lv_tc_screen.c:77-110 | a start drops the timeout, goes to step 0 and adds a delay timer |
| `CalibrationScreen.Screen.Input` | lv_touch_calibration/lv_tc_screen.c:185-197 | the input callback and what it hands on |
| `CalibrationScreen.Screen.ProcessTouch` | lv_touch_calibration/lv_tc_screen.c:199-213 | one accepted touch is one step |
| `CalibrationScreen.Screen.TransformIndev` | lv_touch_calibration/lv_tc.c:145-159 | the press and release tracker |
| `CalibrationScreen.Screen.ReadTouch` | lv_touch_calibration/lv_tc.c:187-206 | the read callback |
| `CalibrationScreen.Screen.RecalibrateTick` | lv_touch_calibration/lv_tc_screen.c:295-304 | the timeout restarts the calibration on its last tick |
| `CalibrationScreen.Drive` | lv_touch_calibration/lv_tc_screen.c:61-110 | a new screen driven through any events ends in the state the run claims speak of |
| `IniConfig.LoadIni` | src/config.h:82-146 | the loading loop computes `Load`: the fold of its lines, or the exception |
| `IniConfig.Loader.FlushGroup` | src/config.h:91-97 | flushing pushes the open group with its id, or fails on a name that holds an object |
| `IniConfig.Loader.TakeEntry` | src/config.h:136-142 | an entry goes to the open group, else to the section, else nowhere |
| `IniConfig.Loader.TakeLine` | src/config.h:100-142 | one line is one step of the fold |
| `IniConfig.Strip` | src/config.h:100-110 | return, comment and blanks are removed; the early comment test never changes the outcome |
| `IniConfig.SplitLine` | src/config.h:112-134 | header or entry, split at the first blank or the first `=` or `:` |
| `IniConfig.SetTyped` | src/config.h:60-79 | bool before integer before string |
| `Text.CharClasses` | src/config.h:50-54 | the blanks, digits and letters by code point |
| `Text.TrimLoop` | src/config.h:50-54 | the two-cursor trim keeps exactly the text between the outer blanks |
| `IniMeaning.LoaderIsBlockwise` | src/config.h:82-146 | the one-pass loader equals the block-by-block meaning on all inputs, exceptions included |
| `IniMeaning.DenoteByName` | src/config.h:91-142 | loading throws if and only if some name has both section entries and group items; otherwise every name holds its merged entries or its items in file order |
| `IniValues.TypedIff` | src/config.h:60-79 | exactly what a text is loaded as: one of eight boolean words in any case, else the 64-bit integer it is as a whole, else the string |
| `IniValues.ParseIntIff` | src/config.h:67-73 | the integer reader accepts a text if and only if its C string is blanks, an optional sign and digits to its end, in 64-bit range, with that value |
| `IniValues.ParseBoolIff` | src/config.h:60-66 | the boolean reader accepts exactly the eight words, in any case |
| `IniValues.ForeignIsNoInteger` | src/config.h:71 | a character that is no blank, digit or sign keeps a text from being an integer |
| `IniLines.BareReadsIff` | src/config.h:129-134 | an unquoted value reads back as written if and only if its line does not look like a header |
| `IniLines.BareLoads` | src/config.h:82-146 | a section with an unquoted value loads as that value, typed |
| `IniLines.HostLoads` | src/config.h:67-79 | the shipped host line loads as a string |
| `IniLines.HeaderReadsPadded` | src/config.h:112-125 | blanks inside a header never matter and an id needs no quotes |
| `IniLines.SeparatorlessSkips` | src/config.h:129-130 | a line that is no header and has no separator is skipped |
| `IniLines.PreambleIgnored` | src/config.h:140-142 | entries before the first header are dropped |
| `IniLines.GroupItemsCarryIds` | src/config.h:92-95 | every object of a group carries its header's id, even over an entry called id |
| `IniLines.BlocksInOrder` | src/config.h:91-97 | what earlier blocks leave comes before what later blocks leave |
| `IniLines.LastEntryWins` | src/config.h:74-79 | the last entry with a key gives its value |
| `IniMarks.ValueLoadsIff` | src/config.h:50-146 | a value set in a section loads back from the file if and only if it is a bool, a 64-bit integer other than 0 and 1, or a string that reads as neither and holds no comment mark or newline |
| `IniMarks.EntryRoundTripIff` | src/config.h:99-134 | the same for one printed line, in any style |
| `IniMarks.LoadedIsClean` | src/config.h:106-107 | no string anywhere in a loaded tree holds a comment mark or a newline, whatever the file's quotes |
| `IniMarks.QuotesDoNotProtect` | src/config.h:106-107 | one line whose quoted `#` cuts its value, as the condition above says |
| `IniRoundTrip.ValueRoundTripIff` | src/config.h:60-79 | the value's text alone reads back if and only if it is a bool, a 64-bit integer other than 0 and 1, or a string that reads as neither; comment marks come in with the line |
| `IniRoundTrip.RoundTrip` | src/config.h:82-146 | any printable blocks load back to their meaning in any style, whatever blank lines, comments, indentation, trailing blanks and returns are added |
| `IniRoundTrip.PrintedLoads` | src/config.h:82-146 | the plain printed text loads back |
| `IniRoundTrip.PrintedTree` | src/config.h:82-146 | name by name, the printed text loads back with the same entries, types and group order |
| `IniRoundTrip.SameCoresLoadAlike` | src/config.h:99-110 | any two files with the same significant lines load alike |
| `IniRoundTrip.WrittenCore` | src/config.h:100-110 | indentation, trailing blanks, a return and a comment never change a line's core |
| `TempFilter.RecogniseBuf` | src/klipper_temp_filter.h:124-175 | the recogniser computes `IsReport` on every buffer |
| `TempFilter.ScanLoop` | src/klipper_temp_filter.h:151-174 | the cursor strictly advances, stays in bounds, and the "stuck" return is unreachable |
| `TempFilter.ParseToken` | src/klipper_temp_filter.h:72-121 | end and kind of the token at a position; on failure cursor and flag are unchanged |
| `TempFilter.ParseNumber` | src/klipper_temp_filter.h:39-52 | the end of the number at a position, or failure with the cursor unchanged |
| `TempFilter.ParseTempPair` | src/klipper_temp_filter.h:54-63 | a reading with an optional slash and optional second number |
| `TempFilter.Occurs` | src/klipper_temp_filter.h:21-28 | substring search |
| `TempReports.ReportIff` | src/klipper_temp_filter.h:124-175 | a line is hidden if and only if, trimmed, it has a known marker, every letter outside a leading "ok" starts a token spelled as in `TokenAtIff`, and one of those letters is T |
| `TempReports.TokenAtIff` | src/klipper_temp_filter.h:72-121 | a token stands at a position if and only if a label (T, T and one digit, B, C, @ or B@), a colon and the start of a number do |
| `TempReports.EchoKept` | src/klipper_temp_filter.h:158-159 | "echo: T:210" is shown |
| `TempReports.NumberEndPrinted` | src/klipper_temp_filter.h:39-51 | the number parser ends exactly after a printed number |
| `TempReports.PairEndPrinted` | src/klipper_temp_filter.h:54-63 | the pair parser takes a printed reading whole |
| `TempReports.TokenPrinted` | src/klipper_temp_filter.h:72-121 | the token parser takes a printed token whole and tells an extruder's from the others |
| `TempReports.ScanIff` | src/klipper_temp_filter.h:151-174 | the same for the scan from any position |
| `TempReports.TokenLetters` | src/klipper_temp_filter.h:72-121 | a token's only letter is its head, one of T, B, C |
| `TempReports.ForeignLetterKept` | src/klipper_temp_filter.h:158-159 | a line with a letter other than T, B or C anywhere outside a leading "ok", such as "echo:" or "Error:", is never hidden |
| `TempReports.PlausibleIff` | src/klipper_temp_filter.h:132-138 | the fast reject passes exactly the lines with a marked colon |
| `TempReports.PrintedReportIff` | src/klipper_temp_filter.h:124-175 | any report printed from the token grammar, in any whitespace, with or without "ok", is hidden if and only if it has a T token and a token the fast reject knows |
| `TempReports.SecondExtruderShown` | src/klipper_temp_filter.h:133-138 | a `T1:` report alone is not hidden |
| `Console.ConsolePanel.AddTextLimitLines` | src/console_panel.cpp:54-92 | appending leaves the last hundred lines of the text so far |
| `Console.ConsolePanel.HandleMacroResponse` | src/console_panel.cpp:96-111 | a batch skips non-strings and temperature reports and leaves the last hundred lines of the whole history |
| `Console.SkipLines` | src/console_panel.cpp:80-84 | the skipping loop drops exactly the given number of lines |
| `Console.Drive` | src/console_panel.cpp:54-115 | after any run of responses and clears the text is the last hundred lines since the last clear |
| `Console.ResponseShown` | src/console_panel.cpp:100-108 | a response is appended with two newlines unless it is a temperature report; what is not a string adds nothing |
| `Console.ForeignResponseShown` | src/console_panel.cpp:104-108 | a response with a letter other than T, B or C outside a leading "ok" always appears |
| `Console.PrintedReportShownIff` | src/console_panel.cpp:104-106 | a printed report appears exactly when it lacks an extruder reading or a known label |
| `Console.LineCounts` | src/console_panel.cpp:62-74 | a line counts once whether or not its newline has come |
| `Console.ReceiveInOrder` | src/console_panel.cpp:101-108 | responses appear in the order they arrive |
| `Console.ClearForgets` | src/console_panel.cpp:113-115 | a clear forgets everything before it and nothing after |
| `Console.LastLinesAppend` | src/console_panel.cpp:75-89 | trimming after each append equals trimming once at the end |
| `Console.LastLinesSuffix` | src/console_panel.cpp:62-89 | what is kept is a suffix that starts at a line boundary with all the lines or exactly a hundred |
| `CalMessage.ParseCalMsg` | src/main_panel.cpp:209-233 | the parser computes `Parse` on every text |
| `CalMessage.CountBounds` | src/main_panel.cpp:214-215 | the two cursor loops find the maximal digit runs on both sides of the slash |
| `CalMessage.ConvertCount` | src/main_panel.cpp:216-219 | the first number sticks when the second is out of range |
| `CalMessage.RoundTrip` | src/main_panel.cpp:209-233 | "prefix X/N: now \| next" parses back to X, N, now and next for all counts in int range |
| `CalMessage.ShortRoundTrip` | src/main_panel.cpp:209-233 | the form without a bar parses back too, and a number out of int range drops the count or its second half |
| `CalMessage.BareTexts` | src/main_panel.cpp:211-222 | without a slash there is no count, without a colon no step |
| `CalMessage.CampaignNames` | src/main_panel.cpp:463-464 | both announced campaign names are prefixes the round trip covers |
| `CalMessage.BarWithinPanel` | src/pono_anim.cpp:308-313 | a width is drawn exactly up to 4473924 completed steps, lies in 0..480, and is 480 when done |
| `CalMessage.BarIsProportional` | src/pono_anim.cpp:312 | the width is the completed share of 480 pixels, cut to a pixel |
| `CalMessage.BarGrows` | src/pono_anim.cpp:308-313 | the bar never shrinks as the count grows |
| `CalMessage.BarCanOverflow` | src/pono_anim.cpp:312 | a count whose width computation leaves the C int range |
| `PathGuard.SafeThumbPath` | src/path_guard.h:25-37 | the loop accepts exactly the non-empty, bounded, relative, NUL-free paths without a ".." component |
| `PathGuard.AcceptedStaysBelowRoot` | src/path_guard.h:25-37 | split on "/" alone or on both separators, no prefix of an accepted path climbs above the root |

## Left out

- LVGL drawing, styling, alignment, fonts, images and animations; only hidden flags, label texts, child order, the areas of the top-layer children and timers are kept.
- Screen navigation, the System screen, the integrity badge, the bed mesh, fan labels, progress and time left: single-branch facts or no agreement to claim (the fan slider writes its labels without their shadow).
- The legacy panels behind the cockpit, and `src/cli.h`: easy members.
- Type errors inside status messages; a field is present with its type or absent. A file-list reply that is not an array is an empty list.
- Websocket, Moonraker, curl, popen and file access: replies, link events and clock ticks are events in any order.
- Floating-point rounding in the calibration solver, display rotation, and 16-bit coordinate overflow; a zero divisor is its own value, and the conversion of a non-finite float is left undefined.
- `Config::get` and `Config::get_objects`: lookups with one branch per type.
- The prompt dialog's own drawing: it is built on the active screen (src/prompt_panel.cpp:29), although the comment at src/prompt_panel.cpp:295 puts it on the top layer, so it is no top-layer child here.
- Stepping the cursor inside the console text: it is at the end, where every append leaves it.
- TimersRun: does not model LVGL's timer scheduling, because only the total of timer time since the latest show matters for the watchdog.
- KeypadOkTapped: does not model typed numbers outside the C int range, whose conversion C leaves undefined; an OK on an empty field is the dismiss event.
- SentCommandsPermitted: covers the native screens only; the legacy panels dispatch on their own.
- Consume: leaves out fan labels, progress, time left, the bed mesh, the position readout and waking the display, none of which another claim depends on.
- OnTap: leaves out navigation, segment highlights and the System and Wi-Fi entries, which dispatch nothing; the unofficial-build notice they may raise is its own event.
- HiddenOnlyByCurrentLink: between the epoch bump and the locked re-show the old screen is still up, so the reply is then of the link just lost; past 2^32 disconnects `LateReplyIff` applies.
