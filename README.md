# Brewery volume ledger

A model of the part of the `brewery` system that keeps track of how much
liquid is in each vessel of a four-vessel home-brewing rig: the hot-liquor
tank (hlt), the mash tun, the boiler and the carboy. Nothing measures those
volumes directly. They are inferred from events on the gadget bus: a valve
opening or closing, the carboy pump stopping, and the float switch in the hlt
reporting that it is full. The gauges then report each vessel's volume back
onto the bus.

Several generations of this logic live in the repository, and each is
modelled on its own:

| module | file | what it is |
|---|---|---|
| `Ledger` | volume.go | the current ledger: volumes in mL, a fitted drain curve, listeners per vessel |
| `Tanks` | tank.go | the four input devices that report the ledger's volumes; the master tank forwards events |
| `Brewery` | brewery.go | the package entry point that wires the ledger and the four tanks |
| `RootBrewVolume` | brew_volume.go | the older ledger with four volume fields in litres and a Torricelli drain |
| `RootCarboy` | carboy.go | the same ledger over a map, reporting as "brew volume" |
| `RootTun` | tun.go | the tun gauge in mL that reports on every tenth tick |
| `BrewgadgetsBrewVolume` | brewgadgets/brew_volume.go | a three-vessel ledger (hlt, mash tun, boiler) |
| `BrewgadgetsMash` | brewgadgets/mash.go | the mash gauge, with drain-time and calibration formulas |
| `BrewgadgetsBoiler` | brewgadgets/boiler.go | the boiler gauge: a fixed wait, then add the tun's last volume |
| `BrewgadgetsHlt` | brewgadgets/hlt.go | the hlt gauge: float switch plus a latch on "mash volume" reports |
| `GadgetsHlt` | gadgets/hlt.go | the later hlt gauge, with "update" and "shutdown" commands |
| `Recipes` | recipes/recipes.go | brew-day arithmetic: strike temperature, mash and sparge volumes, the step list |

The shared modules are `Gadgets` (the message envelope), `Units` (the mL,
gallon and litre conversions), `Torricelli` (the orifice-drain formula that
the older gauges share) and `Wrappers` (`Option`, `Result`).

How the Go code is expressed:

- Each Go struct whose fields its methods update is a Dafny `class`.
- Each channel send of a gauge or ledger is an append to its `out`
  sequence. The exception is the ledger of volume.go: it calls each tank's
  registered `sendUpdate` directly, and the model records each call as a
  `Notice` in the ledger's `notices`. `Tanks.Tank.Deliver` states the
  status message that a notice puts on that tank's `out`.
- Each goroutine is a step method for the moment it does something. For
  example, `TunTick` is one tick of `fillTun` and `BoilerTimerFires` is the
  end of `fillBoiler`'s wait. Ghost counters record how many
  float-switch waits are still pending.
- Clock readings are parameters (`since`, `elapsed`). So are the square root
  (`root`, with `IsSqrt(root)` assumed only by the lemmas that need it), π,
  and whether the GPIO pin could be opened (`gpioOk`).
- Go yields NaN or an infinity when a tank has no area, a height is
  negative, or a water ratio is zero. The model returns `None` there, or 0
  where the code replaces a NaN by 0; the one place where the model's 0
  stands for a NaN that Go keeps is listed under "## Left out".
- brewgadgets/brew_volume.go's NewBrewVolume sets no poller, so an opened
  hlt valve makes Go panic on the nil poller; that class records the
  crash as `crashed`, after which nothing changes.
- A failed `.(float64)` type assertion panics in Go. The model rules it out
  with a `requires` that the value is a number.

The older ledgers send on an unbuffered stop channel even when no fill
goroutine is listening. In the model that leaves Start's loop `blocked`:
every later message changes nothing.

## Model

| member | source | states |
|---|---|---|
| Units.ToGallons | volume.go:11-15 | mL become gallons at 3785.41 mL per gallon |
| Units.ToMillilitres | volume.go:108-112 | gallons become mL, and converting back gives the same gallons |
| Ledger.DrainCurve | volume.go:204-206 | the fitted curve a + b·t + c·t² gives `a` at t = 0 |
| Ledger.Recomputed | volume.go:194-202 | hlt and tun are rebuilt from the fill's snapshot: together they hold what they held at the start, the tun gained exactly the drained amount, and no other vessel changes |
| Ledger.Moved | volume.go:137-154 | one vessel's liquid replaces another's content and the source is emptied; the rig loses exactly what the destination held before |
| Ledger.OnlyLatestReadingCounts | volume.go:173-192 | after any number of ticks of one fill, the volumes depend only on the latest timer reading; hlt + tun and the rig's total are conserved |
| Ledger.OfSnoc | brewery.go:38-54 | each option sets its own field and a later option of the same kind wins |
| Ledger.Classify | volume.go:114-132 | a tun or boiler "off" only counts while that fill runs; a non-update message is ignored |
| Ledger.VolumeManager.constructor | volume.go:62-81 | the ledger starts with hlt and tun at 0 mL, no listeners, no fill running |
| Ledger.VolumeManager.Apply | brewery.go:38-54 | each option closure sets exactly its own field |
| Ledger.VolumeManager.Get | volume.go:101-106 | a vessel's mL in gallons; a vessel never written reads 0 |
| Ledger.VolumeManager.Set | volume.go:108-112 | gallons stored as mL for one vessel; reading it back gives the same gallons and no other vessel changes |
| Ledger.VolumeManager.Register | volume.go:169-171 | a vessel's listener is recorded; a later registration replaces it |
| Ledger.VolumeManager.Notify | volume.go:200-201 | calling a vessel's registered listener with some gallons appends exactly that call, listener and gallons, to the notices |
| Ledger.VolumeManager.StartTunFill | volume.go:173-179 | opening the tun valve raises the fill flag and snapshots hlt and tun |
| Ledger.VolumeManager.Recompute | volume.go:194-202 | the volumes become `Recomputed` from the snapshot, then the hlt and the tun listeners hear the new gallons, in that order |
| Ledger.VolumeManager.TunTick | volume.go:188-189 | a tick of the fill recomputes from the snapshot and notifies hlt then tun |
| Ledger.VolumeManager.StopTunFill | volume.go:184-187 | stopping the fill clears the flag and recomputes one last time |
| Ledger.VolumeManager.BoilerTimerFires | volume.go:143-151 | the boiler wait runs out: the tun's liquid moves to the boiler, the tun reads 0, and the boiler then the tun are notified |
| Ledger.VolumeManager.FloatSwitch | volume.go:156-167 | a poller error changes nothing; otherwise the hlt is set to its capacity and its listener hears it |
| Ledger.VolumeManager.ReadMessage | volume.go:114-132 | per branch (the predicate `Handled`): tun on starts a fill, tun off during a fill recomputes, boiler on/off toggles the boiler fill, hlt on starts a float wait, pump off moves the boiler into the carboy and notifies carboy then boiler, anything else changes nothing |
| Ledger.NewVolumeManager | volume.go:62-99 | options apply in order; clock and timer default to the system's; the GPIO poller is built only when none was injected, and failing to open it is the only error |
| Tanks.Status | tank.go:55-71 | a tank reports as "<name> volume" at its location, named "volume", type update, value in gallons |
| Tanks.Tank.constructor | tank.go:21-28 | the tank is master exactly when the masterTank option is given, and it registers its own callback for its vessel |
| Tanks.Tank.Start | tank.go:30-37 | Start first announces the vessel's current volume |
| Tanks.Tank.Deliver | tank.go:55-71 | a ledger notice addressed to this tank's listener puts the status with the notified gallons on the tank's output |
| Tanks.Tank.ReadMessage | tank.go:47-53 | an "update" command re-announces the volume; any other message goes to the ledger from the master only, with the ledger's full per-event effect (`Handled`: new volumes, notices, flags, float waits, fill snapshot); a non-master changes nothing |
| Brewery.New | brewery.go:28-36 | a ledger error yields no tanks; otherwise four tanks with hlt the only master, each vessel's listener registered, all volumes 0 |
| Torricelli.GetK | brew_volume.go:94-100 | k·A_valve·coefficient = A_tank·√(2/g), the area is π·r², and there is no k exactly when the valve flow is zero |
| Torricelli.Drained | brew_volume.go:224-231 | newVolume: the drained litres are never negative, are 0 at t = 0, and are 0 for a negative height (Go's NaN); fed the raw start volume it is the code as written |
| Torricelli.EmptiesAtEmptyTime | brew_volume.go:224-231 | at t = k·√h₀ exactly the tank's content has drained |
| Torricelli.DrainedGrowsUntilEmpty | brew_volume.go:224-231 | the drained volume never decreases until the tank is empty |
| Torricelli.DrainTime | brewgadgets/mash.go:121-128 | a drain time exists whenever 0 ≤ drained ≤ start, and draining nothing takes no time |
| Torricelli.DrainTimeInverse | brewgadgets/mash.go:112-128 | draining for DrainTime takes exactly the asked-for volume out |
| Torricelli.DrainedLitres | brewgadgets/mash.go:112-119 | with the litres converted to cm³ first, the result is non-negative and 0 at t = 0 |
| Torricelli.DrainedLitresEmptiesTank | brewgadgets/mash.go:112-119 | with litres converted, an emptied tank hands over all its litres |
| Torricelli.DrainedMillilitres | tun.go:180-187 | with the result converted to mL, it is non-negative and 0 at t = 0 |
| Torricelli.DrainedMillilitresEmptiesTank | tun.go:180-187 | with the result in mL, an emptied hlt hands the tun all of its mL |
| RootBrewVolume.AsWrittenDrainRunsBackwards | brew_volume.go:224-231 | as written, a 4 L hlt has lost 0.004 L at 0.2 s but only 0.003 L at 0.3 s; the corrected drain grows |
| RootBrewVolume.Classify | brew_volume.go:124-140 | "update" is recognised iff it is the update command; boiler off counts only while listening; tun off is always a tun stop |
| RootBrewVolume.BrewVolume.constructor | brew_volume.go:71-92 | all four vessels start empty, with getK's area and k |
| RootBrewVolume.BrewVolume.Report | brew_volume.go:191-207 | a vessel's litres reported as "<loc> volume" in gallons |
| RootBrewVolume.BrewVolume.Reports | brew_volume.go:183-189 | one report per listed vessel, in order |
| RootBrewVolume.BrewVolume.SendUpdates | brew_volume.go:183-189 | the output gains exactly the reports of the listed vessels |
| RootBrewVolume.BrewVolume.Start | brew_volume.go:102-104 | Start reports hlt, tun, boiler, carboy |
| RootBrewVolume.BrewVolume.CalculateVolumes | brew_volume.go:218-222 | with the corrected drain: hlt + tun equals the snapshot total, the tun gains the drained litres, the hlt never grows and the tun never shrinks |
| RootBrewVolume.BrewVolume.GetNewVolumes | brew_volume.go:209-216 | with the corrected drain: recompute, then report the hlt and the tun |
| RootBrewVolume.BrewVolume.MashTick | brew_volume.go:142-157 | with the corrected drain: a tick of the mash fill recomputes from the snapshot; boiler and carboy are untouched |
| RootBrewVolume.BrewVolume.BoilerTimerFires | brew_volume.go:162-175 | the tun's litres replace the boiler's, the tun is emptied, tun and boiler are reported |
| RootBrewVolume.BrewVolume.UpdateCarboyVolume | brew_volume.go:177-181 | the boiler's litres replace the carboy's, the boiler is emptied, boiler and carboy are reported |
| RootBrewVolume.BrewVolume.UpdateHLTVolume | brew_volume.go:238-246 | only a full reading fills the hlt to capacity and reports it |
| RootBrewVolume.BrewVolume.FloatSwitch | brew_volume.go:233-236 | a pending wait delivers to Start unless its loop is blocked |
| RootBrewVolume.BrewVolume.ReadMessage | brew_volume.go:124-140 | per branch as in the code, with the corrected drain on a stop; a tun "off" with no fill running blocks the loop for good; the fill flag and snapshot change only on tun on/off, listening only on boiler on/off, pending waits only on hlt on |
| RootCarboy.BrewVolume.constructor | carboy.go:64-84 | all four vessels start at 0 L |
| RootCarboy.BrewVolume.Report | carboy.go:183-199 | every report is sent as "brew volume", located at its vessel |
| RootCarboy.BrewVolume.Reports | carboy.go:175-181 | one report per listed vessel, in order |
| RootCarboy.BrewVolume.SendUpdates | carboy.go:175-181 | the output gains exactly the reports of the listed vessels |
| RootCarboy.BrewVolume.Start | carboy.go:94-96 | Start reports all four vessels |
| RootCarboy.BrewVolume.CalculateVolumes | carboy.go:210-214 | with the corrected drain: the map becomes `Recomputed` from the snapshot; other vessels keep their litres |
| RootCarboy.BrewVolume.GetNewVolumes | carboy.go:201-208 | with the corrected drain: recompute, then report the hlt and the tun |
| RootCarboy.BrewVolume.MashTick | carboy.go:134-152 | with the corrected drain: a tick of the mash fill recomputes from the snapshot |
| RootCarboy.BrewVolume.BoilerTimerFires | carboy.go:154-167 | tun moved into boiler, total drops by the boiler's old content |
| RootCarboy.BrewVolume.UpdateCarboyVolume | carboy.go:169-173 | boiler moved into carboy, total drops by the carboy's old content |
| RootCarboy.BrewVolume.UpdateHLTVolume | carboy.go:230-238 | only a full reading sets the hlt to capacity and reports it |
| RootCarboy.BrewVolume.FloatSwitch | carboy.go:225-228 | a pending wait delivers to Start unless its loop is blocked |
| RootCarboy.BrewVolume.ReadMessage | carboy.go:116-132 | per branch as in brew_volume.go, over the map, with the corrected drain on a stop; the fill flag and snapshot, listening and pending waits change only on their own branches |
| RootTun.AsWrittenTunGainsLitresAsMillilitres | tun.go:170-187 | a 1000 mL hlt empties in 2 s, yet as written the tun gains 1 mL; with mL it gains 1000 |
| RootTun.TicksReportOneInTen | tun.go:128-149 | n ticks give ⌈n/10⌉ reports, the first tick included |
| RootTun.Tun.constructor | tun.go:69-88 | hlt and tun start at 0 mL with the given clocks |
| RootTun.Tun.Status | tun.go:151-168 | "tun volume" reports the tun's mL in gallons |
| RootTun.Tun.SendUpdate | tun.go:151-168 | the output gains the tun's status |
| RootTun.Tun.Start | tun.go:90-92 | Start reports the tun |
| RootTun.Tun.StartFill | tun.go:128-136 | opening the valve snapshots hlt and tun and resets the tick counter |
| RootTun.Tun.GetNewVolume | tun.go:170-178 | with the corrected drain in mL: the tun becomes the snapshot plus the mL drained, the hlt is untouched, and only counters that are multiples of 10 report |
| RootTun.Tun.Tick | tun.go:144-146 | with the corrected drain in mL: a tick recomputes and advances the counter; every tenth tick reports |
| RootTun.Tun.RunTicks | tun.go:137-148 | with the corrected drain in mL: after a run of ticks the tun matches the last reading and exactly ReportCount more tun reports were sent |
| RootTun.Tun.StopFill | tun.go:140-143 | with the corrected drain in mL: stopping clears the flag, recomputes once more and always reports |
| RootTun.Tun.ReadMessage | tun.go:108-126 | update command reports; tun valve on/off starts or stops a fill (the stop with the corrected drain); "hlt volume" stores gallons as mL; "boiler volume" empties the tun; any other update, or a tun valve value that is not a boolean, changes nothing; the snapshot and tick counter change only when the valve opens, the fill flag only on tun valve messages |
| BrewgadgetsBrewVolume.Report | brewgadgets/brew_volume.go:108-117 | only the sender, the type and the gallons are filled in |
| BrewgadgetsBrewVolume.Classify | brewgadgets/brew_volume.go:71-81 | "update" iff the update command; mash tun off is a stop; boiler valve and carboy pump are ignored |
| BrewgadgetsBrewVolume.BrewVolume.constructor | brewgadgets/brew_volume.go:36-45 | NewBrewVolume: hlt and mash tun start at 0 L, and no poller is set |
| BrewgadgetsBrewVolume.BrewVolume.WithPoller | brewgadgets/brew_volume.go:15-27 | a struct literal that sets the poller: the same empty vessels, with a poller |
| BrewgadgetsBrewVolume.BrewVolume.SendUpdates | brewgadgets/brew_volume.go:100-106 | hlt, mash tun and boiler are reported in that order; the boiler always reads 0 |
| BrewgadgetsBrewVolume.BrewVolume.CalculateVolumes | brewgadgets/brew_volume.go:128-132 | with the corrected drain: hlt + mash tun equals the snapshot total; the hlt never grows and the tun never shrinks |
| BrewgadgetsBrewVolume.BrewVolume.GetNewVolumes | brewgadgets/brew_volume.go:119-126 | with the corrected drain: recompute, then report the hlt and the mash tun |
| BrewgadgetsBrewVolume.BrewVolume.MashTick | brewgadgets/brew_volume.go:83-98 | with the corrected drain: a tick of the mash fill recomputes from the snapshot |
| BrewgadgetsBrewVolume.BrewVolume.UpdateHLTVolume | brewgadgets/brew_volume.go:148-155 | only a full reading fills the hlt to capacity |
| BrewgadgetsBrewVolume.BrewVolume.FloatSwitch | brewgadgets/brew_volume.go:143-146 | a pending wait delivers to Start unless its loop is blocked or the program has crashed |
| BrewgadgetsBrewVolume.BrewVolume.ReadMessage | brewgadgets/brew_volume.go:71-81 | per branch as in the code, with the corrected drain on a stop; hlt valve on adds a float wait when a poller is set and crashes the program on the nil poller otherwise; a mash tun "off" with no fill running blocks the loop; after either nothing changes; the fill flag, snapshot and pending waits change only on their own branches |
| BrewgadgetsMash.Mash.constructor | brewgadgets/mash.go:32-45 | both areas are π·r², x = √(2/g), and k·A_valve·coefficient = A_tank·x |
| BrewgadgetsMash.Mash.GetValue | brewgadgets/mash.go:56-61 | the current volume in litres |
| BrewgadgetsMash.Mash.GetVolume | brewgadgets/mash.go:112-119 | the drained litres are never negative and are 0 at t = 0 |
| BrewgadgetsMash.Mash.SendCurrentVolume | brewgadgets/mash.go:63-69 | volume = earlier fills + litres drained so far, never below the earlier fills; it is reported |
| BrewgadgetsMash.Mash.Tick | brewgadgets/mash.go:90-110 | a monitor tick reports earlier fills plus the drain since the valve opened |
| BrewgadgetsMash.Mash.ReadMessage | brewgadgets/mash.go:71-88 | valve on snapshots the hlt in cm³; valve off keeps the volume for the next fill; a valve value that is not a boolean changes nothing; only "hlt volume" changes the hlt volume and only valve on the snapshot; "boiler volume" resets to 0 and reports |
| BrewgadgetsMash.Mash.DrainTimeInvertsGetVolume | brewgadgets/mash.go:112-128 | GetVolume at GetDrainTime's answer gives back exactly the asked-for litres |
| BrewgadgetsMash.Mash.CalibrationRecoversK | brewgadgets/mash.go:121-142 | calibrating with the predicted drain time gives a coefficient that reproduces this gauge's k |
| BrewgadgetsMash.Mash.GetCoefficient | brewgadgets/mash.go:134-142 | no coefficient for a zero area or drain time; a coefficient exists only for a non-negative final height, and then coefficient·A_valve·t = A_tank·x·(√hᵢ − √h_f) |
| BrewgadgetsBoiler.Boiler.constructor | brewgadgets/boiler.go:32-37 | an empty boiler in litres with a 300 s wait |
| BrewgadgetsBoiler.Boiler.GetValue | brewgadgets/boiler.go:56-61 | the boiler's volume in its units |
| BrewgadgetsBoiler.Boiler.ReadMessage | brewgadgets/boiler.go:69-75 | "tun volume" records the tun's volume; boiler valve on starts a wait; anything else changes nothing |
| BrewgadgetsBoiler.Boiler.WaitEnds | brewgadgets/boiler.go:39-67 | when a wait ends the boiler gains the tun's last volume, and the new total is reported |
| BrewgadgetsHlt.AfterMashVolume | brewgadgets/hlt.go:75-83 | a zero latch takes the current volume; the new volume plus the reported drain equals the latch |
| BrewgadgetsHlt.LatchIsAbsolute | brewgadgets/hlt.go:75-83 | once a non-zero volume is latched, only the latest report matters |
| BrewgadgetsHlt.EmptyHltAccumulates | brewgadgets/hlt.go:75-83 | an hlt at 0 when the fill starts latches nothing, so successive reports add up |
| BrewgadgetsHlt.Hlt.constructor | brewgadgets/hlt.go:19-32 | the gauge starts at 0 with the pin's full volume |
| BrewgadgetsHlt.Hlt.GetValue | brewgadgets/hlt.go:53-58 | the hlt's volume in its units |
| BrewgadgetsHlt.Hlt.WaitSends | brewgadgets/hlt.go:60-73 | high sends the full volume, low sends 0, an error sends nothing |
| BrewgadgetsHlt.Hlt.Received | brewgadgets/hlt.go:43-46 | a received value clears the latch, becomes the volume and is reported |
| BrewgadgetsHlt.Hlt.Poll | brewgadgets/hlt.go:34-73 | one poll: an error changes nothing, high fills the hlt, low empties it |
| BrewgadgetsHlt.Hlt.ReadMessage | brewgadgets/hlt.go:75-83 | a "mash volume" report moves the latch and is reported; other senders change nothing |
| BrewgadgetsHlt.NewHLT | brewgadgets/hlt.go:19-32 | fails exactly when the GPIO cannot be opened; otherwise the pin value is the full volume |
| GadgetsHlt.SensorCount | gadgets/hlt.go:34-52 | the poll outcomes are at most the inputs |
| GadgetsHlt.Hlt.constructor | gadgets/hlt.go:19-32 | the gauge starts at the pin's volume with no latch |
| GadgetsHlt.Hlt.ReadMessage | gadgets/hlt.go:67-81 | keep going iff not shutdown; update re-reports; "mash volume" moves the latch and reports; anything else changes nothing |
| GadgetsHlt.Hlt.SensorReading | gadgets/hlt.go:44-65 | high re-sends the current volume, low sends 0, both clear the latch; an error changes nothing |
| GadgetsHlt.Hlt.Start | gadgets/hlt.go:34-52 | the loop takes inputs up to and including the first shutdown, needing only those to be readable, and each pass leaves one more wait unless a poll outcome used it |
| GadgetsHlt.NewHLT | gadgets/hlt.go:19-32 | fails exactly when the GPIO cannot be opened; otherwise the pin value is the starting volume |
| Recipes.GrainWeightAppend | recipes/recipes.go:83-89 | the weight of two grain bills together is the sum of their weights |
| Recipes.GrainWeightBounds | recipes/recipes.go:83-89 | no grain weighs 0; non-negative amounts give a non-negative weight |
| Recipes.GetGrainWeight | recipes/recipes.go:83-89 | the accumulator loop yields the sum of the fermentables' amounts |
| Recipes.TargetTemperature | recipes/recipes.go:91-98 | the first mash step's temperature, 154 °F without steps |
| Recipes.MashTime | recipes/recipes.go:100-107 | the first mash step's time, 45 minutes without steps |
| Recipes.StrikeTemperature | recipes/recipes.go:109-113 | (strike − target)·waterRatio = strikeFactor·(target − grain); no finite value iff the water ratio is 0 |
| Recipes.StrikeTemperatureOrder | recipes/recipes.go:109-113 | grain at the target needs water at the target, and colder grain needs hotter water |
| Recipes.MashVolume | recipes/recipes.go:119-121 | four times the mash volume is waterRatio times the grain weight |
| Recipes.SpargeVolume | recipes/recipes.go:123-132 | at least the mash volume and at least half the boil plus absorption, and equal to one of the two |
| Recipes.GetMash | recipes/recipes.go:71-81 | the mash's volume, strike temperature and time are those of the recipe; the sparge volume is SpargeVolume of that mash volume and grain weight, so at least the mash volume; second sparge is half the boil |
| Recipes.Method | recipes/recipes.go:134-177 | 37 steps; the key steps carry the strike temperature, mash volume, mash time, second sparge and boil time |
| Recipes.LastOptionWins | recipes/recipes.go:179-191 | the last option of each kind decides its field |
| Recipes.New | recipes/recipes.go:57-65 | defaults 1.25 and 0.2, then the options apply in order |

## Left out

- Goroutines, channels, locks and `time.After` are not modelled as such. Each goroutine's effect is a step method, and the order of steps is left to the caller. Lock ordering and data races are not modelled.
- Floating point is modelled as exact reals. Where Go would compute NaN or an infinity the model returns `None`, or 0 where the code itself replaces a NaN height change by 0. Torricelli.Drained returns 0 for a tank area of 0, where Go's newVolume divides by zero and returns NaN (0 times an infinity) once the start volume and the elapsed time are positive.
- π and the square root are parameters; the pure Torricelli lemmas assume only that `root` is a square root.
- The UUID, timestamp and Info fields of messages, and the `%f` text formatting of the recipe steps, are not modelled.
- GPIO access and `newPoller` (volume.go:210-223) are not modelled. Whether the pin opened is the parameter `gpioOk`, and a poller's answer is a `Poll` value.
- JSON decoding in `recipes.New` (recipes/recipes.go:67-68) is not modelled. It runs after the options, so a document with a WaterRatio overrides the `WaterRatio` option; `Recipes.New` describes the recipe before decoding.
- `infusionVolume` (recipes/recipes.go:115-117) has no caller and is not modelled.
- `getLiter` and `Calibrate` (brewgadgets/mash.go:144-165) drive GPIO valves and wait on the operator; only `GetCoefficient`, the formula they use, is modelled.
- The NewBrewVolume functions of brew_volume.go and carboy.go call getK and keep the configured poller. Each class constructor takes getK's result as an `Orifice`, and the poller is not a field: its answers arrive through `FloatSwitch`. brewgadgets/brew_volume.go's NewBrewVolume sets no poller; that class records only whether one is set.
- `Brewery.WithAfter`, `Brewery.WithTimer`, `Brewery.WithPoller` only build a `Setting`; their effect is stated by `Ledger.VolumeManager.Apply` and `Ledger.OfSnoc`.
- `BrewgadgetsMash.Mash.GetHeight` and `BrewgadgetsMash.Mash.GetDrainTime` are helpers; their properties are stated by `Torricelli.DrainTime` and `BrewgadgetsMash.Mash.DrainTimeInvertsGetVolume`.
- RootBrewVolume.BrewVolume.CalculateVolumes: uses the corrected drain `DrainedLitres` (the start litres converted to cm³ first), not newVolume of the raw start litres that brew_volume.go:219 computes; the as-written value is `Drained` of the raw litres, and the brew_volume.go Findings row shows how far apart they are.
- RootBrewVolume.BrewVolume.GetNewVolumes: uses the corrected drain `DrainedLitres` (the start litres converted to cm³ first), not newVolume of the raw start litres that brew_volume.go:219 computes; the as-written value is `Drained` of the raw litres, and the brew_volume.go Findings row shows how far apart they are.
- RootBrewVolume.BrewVolume.MashTick: uses the corrected drain `DrainedLitres` (the start litres converted to cm³ first), not newVolume of the raw start litres that brew_volume.go:219 computes; the as-written value is `Drained` of the raw litres, and the brew_volume.go Findings row shows how far apart they are.
- RootBrewVolume.BrewVolume.ReadMessage: uses the corrected drain `DrainedLitres` (the start litres converted to cm³ first), not newVolume of the raw start litres that brew_volume.go:219 computes; the as-written value is `Drained` of the raw litres, and the brew_volume.go Findings row shows how far apart they are.
- RootCarboy.BrewVolume.CalculateVolumes: uses the corrected drain `DrainedLitres` (the start litres converted to cm³ first), not newVolume of the raw start litres that carboy.go:211 computes; the as-written value is `Drained` of the raw litres, and the brew_volume.go Findings row shows how far apart they are.
- RootCarboy.BrewVolume.GetNewVolumes: uses the corrected drain `DrainedLitres` (the start litres converted to cm³ first), not newVolume of the raw start litres that carboy.go:211 computes; the as-written value is `Drained` of the raw litres, and the brew_volume.go Findings row shows how far apart they are.
- RootCarboy.BrewVolume.MashTick: uses the corrected drain `DrainedLitres` (the start litres converted to cm³ first), not newVolume of the raw start litres that carboy.go:211 computes; the as-written value is `Drained` of the raw litres, and the brew_volume.go Findings row shows how far apart they are.
- RootCarboy.BrewVolume.ReadMessage: uses the corrected drain `DrainedLitres` (the start litres converted to cm³ first), not newVolume of the raw start litres that carboy.go:211 computes; the as-written value is `Drained` of the raw litres, and the brew_volume.go Findings row shows how far apart they are.
- BrewgadgetsBrewVolume.BrewVolume.CalculateVolumes: uses the corrected drain `DrainedLitres` (the start litres converted to cm³ first), not newVolume of the raw start litres that brewgadgets/brew_volume.go:129 computes; the as-written value is `Drained` of the raw litres, and the brew_volume.go Findings row shows how far apart they are.
- BrewgadgetsBrewVolume.BrewVolume.GetNewVolumes: uses the corrected drain `DrainedLitres` (the start litres converted to cm³ first), not newVolume of the raw start litres that brewgadgets/brew_volume.go:129 computes; the as-written value is `Drained` of the raw litres, and the brew_volume.go Findings row shows how far apart they are.
- BrewgadgetsBrewVolume.BrewVolume.MashTick: uses the corrected drain `DrainedLitres` (the start litres converted to cm³ first), not newVolume of the raw start litres that brewgadgets/brew_volume.go:129 computes; the as-written value is `Drained` of the raw litres, and the brew_volume.go Findings row shows how far apart they are.
- BrewgadgetsBrewVolume.BrewVolume.ReadMessage: uses the corrected drain `DrainedLitres` (the start litres converted to cm³ first), not newVolume of the raw start litres that brewgadgets/brew_volume.go:129 computes; the as-written value is `Drained` of the raw litres, and the brew_volume.go Findings row shows how far apart they are.
- RootTun.Tun.GetNewVolume: uses the corrected drain `DrainedMillilitres` (the drained volume converted to mL), not the litres that tun.go:171-173 adds to the tun's mL; the tun.go Findings row shows the difference.
- RootTun.Tun.Tick: uses the corrected drain `DrainedMillilitres` (the drained volume converted to mL), not the litres that tun.go:171-173 adds to the tun's mL; the tun.go Findings row shows the difference.
- RootTun.Tun.RunTicks: uses the corrected drain `DrainedMillilitres` (the drained volume converted to mL), not the litres that tun.go:171-173 adds to the tun's mL; the tun.go Findings row shows the difference.
- RootTun.Tun.StopFill: uses the corrected drain `DrainedMillilitres` (the drained volume converted to mL), not the litres that tun.go:171-173 adds to the tun's mL; the tun.go Findings row shows the difference.
- RootTun.Tun.ReadMessage: uses the corrected drain `DrainedMillilitres` (the drained volume converted to mL), not the litres that tun.go:171-173 adds to the tun's mL; the tun.go Findings row shows the difference.
- BrewgadgetsMash.Mash.constructor: requires a non-zero valve area and coefficient, where Go would compute an infinite k.
- BrewgadgetsMash.Mash.CalibrationRecoversK: requires a positive drain volume, because draining nothing takes no time and Go's coefficient is then NaN.
- GadgetsHlt.Hlt.Start: about the output, it states only that messages are appended. The content of each message is stated per input by `GadgetsHlt.Hlt.ReadMessage` and `GadgetsHlt.Hlt.SensorReading`.
- GadgetsHlt.Hlt.Start: starting a new `wait` goroutine on every pass is recorded only as a count of pending waits.
- BrewgadgetsBoiler.Boiler.ReadMessage: the clock of the five-minute wait is not modelled; a wait's end is the separate step `WaitEnds`.
- The start of each device's receive loop in brewgadgets/boiler.go and brewgadgets/hlt.go is only its per-message and per-reading steps.
- Root boiler.go and hlt.go, gadgets/mash.go, the web and command-line programs, and brewgadgets/calibrate are not part of this model.

## Findings

| source | as written | input that shows it | evidently intended | confidence | as-written member | corrected member |
|---|---|---|---|---|---|---|
| tun.go:170-187 | newVolume takes the hlt's start volume in mL, so it returns litres, and getNewVolume adds those litres to the tun's mL | a 250 cm² hlt holding 1000 mL with k = 1 is empty after 2 s, yet the tun has gained only 1 mL | convert the drained volume to mL, so the tun gains the 1000 mL the hlt held | not executed | RootTun.AsWrittenTunGainsLitresAsMillilitres | Torricelli.DrainedMillilitresEmptiesTank |
| brew_volume.go:224-231 | newVolume divides a start volume in litres by the area in cm², taking the height as if the litres were cm³ (also carboy.go:216-223, brewgadgets/brew_volume.go:134-141) | a 100 cm² hlt holding 4 L with k = 1 has lost 0.004 L after 0.2 s but only 0.003 L after 0.3 s | convert litres to cm³ before taking the height, as brewgadgets/mash.go does; the drained volume then grows until the tank is empty | not executed | RootBrewVolume.AsWrittenDrainRunsBackwards | Torricelli.DrainedGrowsUntilEmpty |
