# A verified model of the slither server

The program is a game server. Every 8 ms frame it moves snakes over a map of 144 x 144 sectors, lets them eat and
die, and mirrors what happened to each connected client by small deltas. Almost all of its state is shared and
changed in place: a snake keeps sorted vectors of sectors, a sector keeps the boxes of its snakes and its food, a
viewport keeps the difference it still has to send, and bits in `update` say what is waiting to be broadcast.

This project models those parts and proves what they promise. It has two layers.

- **Objects.** `Sectors`, `SnakeObject`, `WorldObject` and `ServerObject` hold the mutable classes with the
  original's loops: the 3 x 3 and 7 x 7 scans, swap-with-last removal, the fused body-follow loop, the food sweep that
  erases while it walks, the collision scan with its id cache, the broadcast, and the event handlers. Every method is
  proved to compute a function of the values below; `ServerObject.GameServer` ties whole events together.
- **Values.** `SnakeModel`, `WorldModel` and `ServerModel` describe one tick, one world step and one server event as
  functions; sector vectors appear there as sets. The laws are proved about these functions, first for one move,
  then for one tick (`Ticks`, `TickLaws`, `BodyLaws`), one timer step (`StepLaws`, `MirrorLaws`, `FoodMirror`,
  `LengthMirror`, `StatusMirror`, `FoodLedger`), and finally for every run, that is, any sequence of timer steps,
  connections, disconnections and messages (`Runs`, `RunLaws`, `RunBodies`, `Lodging`, `RunControls`, `Paces`,
  `RunMirrors`, `RunKnown`, `AddSnakePacket`). `Paces`, `Lodging` and `Crashes` say in numbers how far and how fast
  snakes go, where they are registered, and which distances are deadly. `ServerObject.GameServer.Run` ties the two layers together: calling the handlers one after the
  other goes through exactly the states of the run.

A client is modelled by what its packets say: the sectors in view, the food positions it knows, the number of parts,
head, angle, speed and fullness of each snake it was introduced to, and whether its player was told that it died. `Packets.Replay` folds a session's log into such a client.

## Conventions and hypotheses

- Coordinates, angles and distances are exact reals; distances are compared squared. The heading of a tick is any
  vector of length one, and `atan2` is any function. Random draws are any reals in [0, 1].
- A sector is its index `y * 144 + x`, which is also its address order, because the sector vector is reserved once.
  `SectorSeq` holds the `snakes` and `food` members of all sectors. A snake box in a sector's list, a snake in the
  change list and a connection handle are represented by their ids; ids do not wrap.
- The run theorems assume timer steps of at most 510 ms and starting bodies of at least three parts strictly
  inside the death disc, which `Birth.BornWell` shows for all starting lengths up to 595. Prompt runs are those with
  timer steps of at most 86 ms (the timer is set to 10 ms).
- Food is identified by position on the wire, so the food theorems are stated position by position: they hold for a
  position that is used properly (`RunMirrors.IsFreshAt`), whatever is misfiled or reused anywhere else. Properly
  means that food is put there only while the position is free, nothing pending is about it, and the sector it is
  filed in is the one it lies in.
- `UpdateSnakeConsts` derives scale and body part radius from the number of parts and runs whenever that number
  changes, so both are functions of it here.

## What the proofs found

- The guard `j + tail_step >= i` of the tail loop never fails, so every tail part is tested for a crossing
  (src/game/snake.cc:114); `SnakeObject.Snake.FollowHead` carries the guard and proves that reading.
- A client byte of 250 asks for the angle 2 pi. No turning ends on it, and a player that wants it reports a turn at
  every rotation interval (`Control.TickRestless`). All other bytes are reached by any turns that cover the distance
  (`Control.SettlesIff`, `Control.ByteSettles`).
- A meal leaves food in range behind the first miss on each side (`SnakeLaws.MealLeavesFood`), and all food in range
  that is filed across a sector border (`SnakeLaws.MealStopsAtBorder`). It leaves nothing in range on the map if and only
  if neither is the case (`SnakeLaws.MealClearsIff`).
- On snakes of more than 20 parts the chunked body test looks at a pair only if its chunk has a centre within the body
  and that centre is within 150 of the foe. So it never looks at the pairs 19, 31, 43, ... between two chunks, nor at
  the parts behind the last centre, and far centres hide further pairs (`Collision.BlindPairs`). It agrees with the full
  test if and only if nothing hits or some pair it looks at does (`Collision.AgreesIff`). Two real hits it misses, on
  bodies as they are laid: `Collision.MissesBetweenChunks` and `Collision.MissesTheEnd`.
- New bodies of four or more parts do not have the spacing the box radius is computed for (`Birth.BornLoose`). With up to
  seven parts they still fit its length (`Birth.BornShort`), with eight to 21 they are longer (`Birth.BornTooLong`). They
  settle into the spacing one gap per move (`RunBodies.PromptRunSettles`).
- Once a body has settled, no sector is dropped while the head or a part lies in it (`Lodging.TickLodgedIff`), so its
  head and every part from the seventh on are registered where they lie, if they were when it had settled or have
  crossed into another sector since (`Lodging.AlwaysLodged`, `Lodging.SettledLodged`). A part that has done neither is
  registered if and only if a crossing of another looked-at part brought its sector in (`Lodging.LodgedIff`): a new
  snake registers its head and every twelfth part from the third only (`Lodging.BornRegistered`). A head that comes
  close to a looked-at part that is registered where it lies never gets away with it (`Crashes.LodgedPartKills`).
- `DecreaseSnake` removes exactly the asked volume, and leaves fullness below 100, only under the conditions of
  `SnakeLaws.DecreaseExactly`; the one call in the program (33 per boosted move) meets them.
- Death food is filed in its part's sector but may lie in a neighbour: `DeathFood.Misfiled` is an example,
  `DeathFood.FiledIff` the exact margin. A client forgets a piece exactly when the sector it lies in is dropped
  (`FoodMirror.ForgottenIff`), so a player that walks away keeps a sector in view whose misfiled piece its client no
  longer knows (`FoodMirror.MisfiledForgotten`).
- Death food may also land where another snake has eaten in the same step. If the dying snake is listed first, the eat
  packet follows the spawn packet, and the piece is on the map while no client knows it (`Reuse.ReusedIff`,
  `Reuse.OrderMatters`, `Reuse.PieceLost`).
- A client that joins while a snake has unreported length is told the true length, and then gets the backlog again as
  deltas. Its count is right exactly while the server is again as far behind as it was at the introduction, and off by
  that backlog once the server has caught up (`RunMirrors.JoinDrift`, `RunMirrors.JoinedWrong`). One large meal is enough
  to make a backlog (`Backlog.ServerFallsBehind`).
- Head, angle and speed of every living snake, and the fullness of its own, are exact on every client after every timer
  step (`StatusMirror.AlwaysInformed`). The fullness of the others is only what came with the last change of length.
- A disconnection sends nothing, so the other clients keep the snake of a session that closed while it lived
  (`RunKnown.KnownExactly` says exactly which snakes a client knows).

## Model

| member | source | states |
|---|---|---|
| Geometry.ConvexDisc | src/game/snake.cc:107-108 | a mix of two points strictly inside a disc is strictly inside it |
| Movement.MoveKeepsGaps | src/game/snake.cc:62-123 | with g at least the step and every old gap, no gap exceeds g after the move and part i moves at most g / (1 - c_i) |
| Movement.MoveKeepsProfile | src/game/snake.cc:62-123 | gaps of at most (1 - c_i) h with a step of at most h are kept, and no part moves further than h |
| Movement.MoveSettles | src/game/snake.cc:62-123 | a move of at most h settles one more gap into the tight profile, whatever the rest of the body is like |
| Movement.MoveKeepsInside | src/game/snake.cc:62-123 | a move whose new head lies in a disc keeps the whole body in it |
| Movement.ChainWithinBoxLength | src/game/snake.cc:193-206 | with the tight profile any two parts are within the length estimate behind the box radius |
| Movement.Glides | src/game/snake.cc:78-123 | a straight body stretched by moves of 42 (42, 42, 37.485, 32.97, 28.455, then 23.94 between parts) is carried along by one more such move unchanged |
| Grid.WindowComplete | src/game/sector.cc:115-140 | any sector of the map whose circle meets a circle of radius below 237.5 lies in the 3 x 3 window around its centre |
| Grid.CoverageStep | src/game/sector.cc:165-212 | inserting against the old view circle and filtering against the new one keeps all sectors within two cells of a head that moved at most 300 |
| Grid.CoverageStart | src/game/snake.cc:208-215 | a fresh viewport covers everything within two cells of the head |
| SortedVec.LowerBound | src/game/sector.cc:5-12 | the halving search returns the first position not below the key |
| SortedVec.IsPresent | src/game/sector.cc:25-27 | binary search on a sorted vector decides membership |
| SortedVec.Insert | src/game/sector.cc:5-12 | insertion keeps the vector strictly sorted and adds exactly the key |
| SortedVec.SwapRemove | src/game/sector.cc:14-23 | swap with the last element removes exactly the element at the index and keeps the rest distinct |
| SortedVec.Sort | src/game/sector.cc:29-29 | sorting restores strict order with the same elements |
| FoodList.Closest | src/game/sector.cc:68-72 | everything before the returned position has smaller x, everything from it on does not |
| FoodList.Insert | src/game/sector.cc:47-57 | the list stays sorted by x and gains exactly the item |
| FoodList.EatConserves | src/game/snake.cc:238-266 | eaten and remaining items make up the old list as a multiset, and the rest stays sorted |
| FoodList.EatExactly | src/game/snake.cc:238-266 | an item is eaten if and only if everything between it and the insertion point is in range |
| FoodList.EatsAllIff | src/game/snake.cc:246-258 | the sweep leaves nothing in range in the list it sweeps if and only if no item in range there hides behind a miss |
| SnakeLaws.MealClearsIff | src/game/snake.cc:228-267 | a meal leaves nothing in reach on the map if and only if nothing in reach hides behind a miss in the head's sector and no other sector holds anything in reach |
| SnakeLaws.MealLeavesFood | src/game/snake.cc:228-267 | a snake of three parts and two pieces of food in its head's sector, of which one is in reach and survives the meal |
| SnakeLaws.MealStopsAtBorder | src/game/snake.cc:238-240 | a piece two units from the head, filed across the border, survives the meal |
| SnakeLaws.BiteReach | src/game/snake.cc:228-267 | the only piece in the head's sector is eaten if and only if it is within the whole part of 56 plus the body radius, and then leaves the map |
| SnakeLaws.GulpLedger | src/game/snake.cc:350-363 | eating adds exactly the sizes eaten to 100 per part plus fullness, and fullness stays below 100 |
| SnakeLaws.DecreaseExactly | src/game/snake.cc:365-385 | mass falls by exactly the volume, and fullness stays below 100, if and only if the stated conditions on parts and remainder hold |
| SnakeLaws.BurnLedger | src/game/snake.cc:139-146 | a boosted move costs exactly 33 while a fourth part exists, and boosting goes on exactly then |
| SnakeLaws.BurnDrops | src/game/snake.cc:365-398 | a boosted move on less than 33 fullness turns the last part into a piece of size 100 where it was, if the snake is registered there, and keeps 67 |
| Ticks.TickMoving | src/game/snake.cc:8-169 | a tick that reaches a whole step is turn, advance, eat, burn and speed change in that order, and its change is never suppressed |
| Ticks.TickStill | src/game/snake.cc:8-169 | a tick short of a step only turns and reports exactly when the angle changed |
| TickLaws.IntervalBounds | src/game/snake.h:113-127 | the move interval stays in [93, 227] ms and one interval covers at most 42 |
| TickLaws.StepBound | src/game/snake.cc:54-59 | ticks of up to 517 ms move the head at most 294, and leftover time stays below 227 ms |
| TickLaws.SingleStep | src/game/snake.cc:54-59 | ticks of up to 93 ms make at most one step of at most 42 and leave less than 93 ms |
| Paces.TickTravels | src/game/snake.cc:53-66 | one tick moves the head along its heading by exactly speed times the time that is not left over; what is left over is the time modulo 42000 / speed |
| Paces.TickTurnsBy | src/game/snake.cc:27-51 | one tick of a player that wants another angle brings it exactly 0.383625 closer per completed 93 ms, or all the way; otherwise only the time passes |
| Paces.FirstTurn | src/game/snake.cc:27-51 | from angle 0, wanting pi, the angle is 0.383625 after 93 ms |
| Paces.TickSpeeds | src/game/snake.cc:139-160 | one tick brings the speed closer to 448 or 185 by one per millisecond that is not left over, never beyond |
| TickLaws.TickLedger | src/game/snake.cc:137-161 | one tick changes mass by the meal less 33 if it boosts, appends exactly the meal to the eaten list, and keeps all bounds |
| BodyLaws.TickBody | src/game/snake.cc:62-161 | the body after a tick is the followed body, cut short or continued with its last part |
| BodyLaws.TickContained | src/game/snake.cc:62-123 | from inside the death disc, a tick of up to 517 ms keeps all parts behind the head in it and the head on the map |
| BodyLaws.HeadStays | src/game/snake.cc:228-240 | the new head of such a tick is on the map, so the unguarded food sector lookup is in range |
| BodyLaws.TickGaps | src/game/snake.cc:62-161 | a bound on the step and all gaps bounds all gaps after the tick, growth and shrink included |
| BodyLaws.TickProfile | src/game/snake.cc:62-161 | the same for the tight profile |
| BodyLaws.TickSettles | src/game/snake.cc:62-161 | one tick settles one more gap, growth and shrink included |
| BodyLaws.TickCovers | src/game/snake.cc:68-72 | the viewport circle follows the head and the viewport covers its surroundings after every moving tick |
| BodyLaws.TickDelta | src/game/sector.cc:98-113 | the viewport after a tick is the old one plus the new sectors less the old sectors, and nothing gained was there before |
| Lodging.PartInBox | src/game/snake.cc:173-206 | no part of a tight body is further from the centroid than the box radius |
| Lodging.TickRegistered | src/game/sector.cc:115-163 | for any body: a sector is registered after a move if and only if its centre is within the stated distance of the centroid and it was registered before or a looked-at part crossed near it |
| Lodging.TickLodgedIff | src/game/snake.cc:53-136 | for a tight body the sector a part lies in after a tick is registered then if and only if it was before or a looked-at part crossed near it: none is dropped while a part lies in it |
| Lodging.TickLodged | src/game/snake.cc:53-136 | the head and every part from the seventh on are registered in a sector they cross into, and remain so while they stay |
| Lodging.BornRegistered | src/game/snake.cc:208-226 | a new snake is registered exactly in the sectors with centres within 362.5 of its head or of part 3, 15, 27 and so on |
| Lodging.BornViewed | src/game/snake.cc:208-215 | a new player views exactly the sectors of the 7 x 7 window with centres within 1487.5 of its head |
| Lodging.TickViewed | src/game/sector.cc:165-212 | which sectors exactly a moving player has in view, from what it had, the crossing and two distances |
| Control.TurnCloses | src/game/snake.cc:28-50 | a turn reduces the distance around the circle by exactly the rotation, or to zero |
| Control.TurnAllCloses | src/game/snake.cc:28-50 | with a fixed target any number of turns reduces it by exactly their total, or to zero |
| Control.SettlesIff | src/game/snake.cc:28-50 | from any angle any turns end exactly on the wanted angle if and only if that angle is normalized and the turns cover the distance |
| Control.TickRestless | src/game/snake.cc:28-50 | a player that wants an angle outside [0, 2 pi) reports a turn at every completed rotation interval, and is in the same situation afterwards |
| Control.SteerClose | src/game/snake.cc:15-25 | more than a second after its last decision a bot wants, to within 0.01, the angle a quarter circle on from its bearing from the middle; until then nothing changes |
| Control.ByteSettles | src/server/game.cc:385-391 | a client's byte asks for an angle that covering turns reach if it is below 250, and that no turns reach if it is 250 |
| Control.SpeedSettles | src/game/snake.cc:148-158 | with a fixed target three moves reach it without overshoot |
| Control.TickControls | src/game/snake.cc:27-58 | a player's tick keeps the wanted angle, closes in on it by exactly the rotation the tick is worth, and a moving tick approaches the wanted speed by at least one interval's worth |
| Control.SpeedNeedsThree | src/game/snake.cc:148-158 | two moves are not always enough |
| Sectors.Without | src/game/sector.cc:41-45 | exactly the boxes of one id leave a sector's list |
| Sectors.SectorSeq.constructor | src/game/sector.cc:74-83 | all sectors start without snakes and food |
| Sectors.SectorSeq.RemoveSnake | src/game/sector.cc:41-45 | deregistering changes only that sector's list |
| Sectors.ErasedKeeps | src/game/sector.cc:59-61 | erasing takes exactly that item: the others keep their order, the other lists stay |
| Sectors.SnakeBoundBox.InsertSortedWithReg | src/game/sector.cc:93-96 | the sector joins the sorted vector and lists the box once; other registrations stay |
| Sectors.SnakeBoundBox.UpdateBoxNewSectors | src/game/sector.cc:115-140 | on a crossing exactly the map sectors meeting the new circle are added and registered |
| Sectors.SnakeBoundBox.UpdateBoxOldSectors | src/game/sector.cc:142-163 | the loop ends with exactly the sectors still meeting the box, sorted, and deregisters exactly the dropped ones |
| Sectors.ViewPort.UpdateBoxNewSectors | src/game/sector.cc:165-189 | exactly the window's sectors meeting the old circle are added, and the ones not there before are listed as new |
| Sectors.ViewPort.UpdateBoxOldSectors | src/game/sector.cc:191-212 | exactly the sectors still meeting the circle stay, and the dropped ones are listed as old |
| Collision.HitsExactly | src/game/snake.cc:288-348 | the chunked test reports a hit if and only if some pair it looks at is hit, with the pairs it looks at given by the body and the foe |
| Collision.AgreesIff | src/game/snake.cc:288-348 | what it reports is real; up to 20 parts it agrees with the full test, beyond that if and only if no pair is hit or some hit pair is looked at |
| Collision.BlindPairs | src/game/snake.cc:331-343 | the pairs beyond the head chunk that no foe can ever get looked at are exactly those between chunks and behind the last centre |
| Collision.MissesBetweenChunks | src/game/snake.cc:331-343 | a laid body of 32 parts and the head of a three-part snake whose real hit between two chunks is missed |
| Collision.MissesTheEnd | src/game/snake.cc:331-343 | a laid body of 37 parts whose end is hit and missed |
| Crashes.DoomedIff | src/game/world.cc:104-157 | a head inside the disc is doomed if and only if another snake is registered in a sector with its centre within 254.5 and has a looked-at pair within 84 and within the two body radii |
| Crashes.DoomedOutside | src/game/world.cc:108-114 | a head outside the disc is always doomed |
| Crashes.RadiusIs | src/game/snake.cc:460-470 | the body radius in numbers: 14.5 at three parts, 14.5 more per 106 parts, 87 from 533 parts on |
| Crashes.LodgedPartKills | src/game/world.cc:116-156 | a head that comes within 42 and the two radii of a looked-at part that lies in a registered sector is doomed |
| Crashes.TwoSnakes | src/game/world.cc:116-156 | of two snakes of three parts, 20 apart means death and 30 apart does not |
| SnakeObject.Snake.constructor | src/game/world.cc:13-52 | a snake with this body before any sector knows it |
| SnakeObject.Snake.UpdateBoxCenter | src/game/snake.cc:173-191 | box centre is the mean of the parts, viewport centre the head |
| SnakeObject.Snake.InitBoxNewSectors | src/game/snake.cc:208-226 | head and every twelfth part register the new snake; registry and box agree |
| SnakeObject.Snake.IncreaseSnake | src/game/snake.cc:355-363 | the whole new state |
| SnakeObject.Snake.SpawnFood | src/game/snake.cc:387-398 | food goes to its sector exactly if the snake is registered there, and is recorded |
| SnakeObject.Snake.DecreaseSnake | src/game/snake.cc:365-385 | the shrinking loop computes the decrease of the value model, food map included |
| SnakeObject.Snake.EatLeft | src/game/snake.cc:243-254 | erasing leftwards while walking eats exactly the maximal run left of the insertion point, nearest first |
| SnakeObject.Snake.EatRight | src/game/snake.cc:255-265 | erasing at a fixed position eats exactly the maximal run to the right |
| SnakeObject.Snake.UpdateEatenFood | src/game/snake.cc:228-267 | for a head on the map, the two loops together compute the meal of the value model |
| SnakeObject.Snake.FollowHead | src/game/snake.cc:74-123 | the three in-place loops give the functional follow of the old body, their sum is the sum of the new parts, and registrations stay in agreement |
| SnakeObject.Snake.MoveBody | src/game/snake.cc:62-136 | body, both circles and both sector vectors after a move; the accumulated centre is the centroid |
| SnakeObject.Snake.IntersectRange | src/game/snake.cc:288-309 | true if and only if some consecutive pair of the range is hit |
| SnakeObject.Snake.Intersect | src/game/snake.cc:311-348 | true if and only if the chunked test of the model hits; all indices stay in range |
| SnakeObject.Snake.OnDeadFoodSpawn | src/game/snake.cc:400-425 | the nested loops add exactly the model's pieces to the sectors and to the spawn list, draw by draw |
| SnakeObject.Snake.SteerBot | src/game/snake.cc:15-25 | once a second a bot wants the tangent at its head, computed from the arc tangent, unless it nearly does already |
| SnakeObject.Snake.TurnHead | src/game/snake.cc:27-51 | the rotation block |
| SnakeObject.Snake.ChangeSpeed | src/game/snake.cc:148-158 | the speed block |
| SnakeObject.Snake.Tick | src/game/snake.cc:8-169 | the whole tick in place equals the tick of the value model; the registry keeps agreeing with this snake's box and nobody else's entry changes |
| WorldModel.DoomedByShape | src/game/world.cc:97-157 | being doomed depends on bodies and boxes only, so marks made earlier in the pass do not influence it |
| WorldObject.World.TickAllSnakes | src/game/world.cc:88-95 | the first loop ticks every snake once and lists exactly the changed ones, in order |
| WorldObject.World.ScanSector | src/game/world.cc:137-151 | a sector's scan finds a hit or leaves every other listed snake in the cache as tested and not hit |
| WorldObject.World.Collides | src/game/world.cc:104-157 | window, id cache and early returns decide exactly whether the head left the disc or some registered snake is hit |
| WorldObject.World.CheckSnakeBounds | src/game/world.cc:104-157 | exactly the doomed snake is marked; nothing else changes |
| WorldObject.World.TickSnakes | src/game/world.cc:88-102 | the marked set is the set-level one, independent of the order of changes |
| WorldObject.World.Tick | src/game/world.cc:76-86 | whole frames are ticked, the remainder is kept |
| WorldObject.World.CreateSnake | src/game/world.cc:10-63 | the drawn body is laid, and the new snake placed and registered under the next id |
| WorldObject.World.AddNewSnake | src/game/world.cc:202-204 | the table gains exactly the new snake and the registry agrees again |
| WorldObject.World.RemoveSnake | src/game/world.cc:206-217 | afterwards no sector, change or table entry has the id; all others are untouched and still in agreement |
| WorldObject.World.FlushChangesOf | src/game/world.cc:231-235 | exactly the changes of one id are dropped |
| DeathFood.Misfiled | src/game/snake.cc:410-420 | a piece of death food that lies in another sector than it is filed in |
| DeathFood.FiledIff | src/game/snake.cc:410-420 | a part's death food always lies in the part's sector if and only if the part keeps the stated margin on both axes |
| DeathFood.PieceCount | src/game/snake.cc:406 | two pieces per part at three parts, one more per 53 parts, at most twelve |
| DeathFood.InnerIs | src/game/snake.cc:410-413 | the parts that leave food are those at least one sector away from every edge |
| DeathFood.RemainsWorth | src/game/snake.cc:400-427 | a dead body leaves equally many pieces of one size for each part outside the border sectors, together worth 96 to 100 per part |
| Birth.LayBody | src/game/world.cc:33-43 | the two loops lay the body of the recursive description, cut to 16-bit integers at each step |
| Birth.BornWell | src/game/world.cc:20-43 | bodies of 3 to 595 parts lie strictly inside the death disc with gaps of at most 43.5, whatever is drawn |
| Birth.BornLine | src/game/world.cc:20-43 | part i of a new body lies on the line from the middle outwards, 42 and later 24 per part behind the head towards the middle, within 1.5 (i + 1) |
| Birth.BornLoose | src/game/world.cc:33-43 | no body of four or more parts has the tight profile when it is laid |
| Birth.BornShort | src/game/world.cc:33-43 | new bodies of up to seven parts fit the length behind their box radius |
| Birth.BornTooLong | src/game/world.cc:33-43 | new bodies of eight to 21 parts are longer than it |
| Boot.SownRight | src/game/world.cc:178-200 | natural food has sizes of 1 to 10 and lies in the sector it is filed in |
| Boot.DensityIs | src/game/world.cc:180-186 | the number of pieces per sector is the whole part of ten times the stated fraction, between 5 and 10 |
| WorldObject.World.InitFood | src/game/world.cc:178-200 | every sector gets its density of pieces, sorted by x |
| WorldObject.World.SpawnNumSnakes | src/game/world.cc:237-241 | the table holds exactly the drawn bots, each registered |
| StepLaws.TickHalfway | src/game/snake.cc:163-168 | a calm snake's tick reports every change it makes and leaves a dead snake alone |
| StepLaws.WorldTickAfter | src/game/world.cc:76-102 | after a world tick every snake came from its calm self, each change is listed once, and living unmarked snakes lie in the disc |
| StepLaws.TurnCalms | src/server/game.cc:163-253 | no lost update: after its turn, or without one, a snake has nothing left to report, unless it is a bot that just died |
| StepLaws.TurnsTable | src/server/game.cc:163-256 | the broadcast gives every changed snake exactly its own turn and lists exactly the dying bots |
| StepLaws.TimerTable | src/server/game.cc:66-88 | the tables after a whole timer step |
| StepLaws.TimerCalms | src/server/game.cc:294-300 | after a timer step all remaining snakes are calm and only bots are gone |
| MirrorLaws.SessionSynced | src/server/game.cc:241-244 | a living player's viewport after the step is the old one with exactly the sent deltas |
| MirrorLaws.TimerSynced | src/server/game.cc:163-273 | delta sync, one timer step |
| FoodMirror.TickExplained | src/game/snake.cc:228-267 | a tick's eat and spawn lists account for what it did to a position that is used properly |
| FoodMirror.TickAllExplained | src/game/world.cc:88-95 | the lists of all changed snakes, in change-list order, account for all ticks of a step |
| FoodMirror.LastWord | src/packet/p_food.h:9-23 | after food packets a client knows of a position what their last word about it says, or what it knew before |
| Reuse.ReusedIff | src/server/game.cc:183-186 | a single piece of death food on a free position is on the map, and a client ends up knowing it if and only if no packet still to come is about its position |
| Reuse.OrderMatters | src/server/game.cc:163-292 | a dying snake and a bot that ate where a piece falls: listed in one order every client learns of the piece, in the other none does |
| Reuse.PieceLost | src/server/game.cc:163-292 | one such broadcast with concrete bodies and draws |
| FoodMirror.SnapshotOnTheWay | src/server/game.cc:258-273 | a snapshot taken in the middle of a broadcast keeps the client on the way to the right food |
| FoodMirror.DropsOnTheWay | src/server/game.cc:183-186 | so does death food added in the middle of it, for positions at which it lies where it is filed and the position is free |
| FoodMirror.ForgottenIff | src/server/game.cc:258-273 | a piece known or shown is forgotten exactly when the sector it lies in is dropped, whatever sector it is filed in |
| FoodMirror.MisfiledForgotten | src/server/game.cc:258-273 | a misfiled piece of death food, a player that walks on, and a client that is wrong about a sector it still has in view |
| FoodMirror.TimerMirrored | src/server/game.cc:163-292 | snapshot plus overlapping log converges at a position used properly in the step, for every order of changes and whatever happens elsewhere |
| LengthMirror.PublicLengths | src/server/game.cc:223-239 | a turn changes every client's count of the snake by what it changes the server's counter, and no other count |
| LengthMirror.TimerLengths | src/server/game.cc:223-239 | the difference between client count and server counter survives a timer step |
| StatusMirror.TickHonest | src/game/snake.cc:8-169 | a tick without a position, angle, speed or fullness bit left head, angle, speed or fullness as it was |
| StatusMirror.PublicShows | src/server/game.cc:200-241 | a live snake's packets amend its own entry on every client, head, angle and speed as flagged, and no other entry |
| StatusMirror.TimerKnows | src/server/game.cc:163-256 | if every client knows every living snake, it does after a timer step |
| StatusMirror.TimerTold | src/server/game.cc:172-181 | if exactly the players whose snake died were told, they are after a timer step |
| FoodLedger.TickFood | src/game/snake.cc:137-146 | a tick takes exactly the eaten food off the map and puts exactly the spawned food on it |
| FoodLedger.TimerFoods | src/server/game.cc:66-88 | food after a timer step plus all eaten in it is the food before, plus what boosting dropped, plus what the buried snakes left, each once |
| Backlog.MealBehind | src/server/game.cc:223-239 | a meal worth two parts makes an exactly reported snake grow by two, of which its turn reports one |
| Backlog.FallsBehind | src/server/game.cc:223-239 | a new snake and two pieces of food that leave a part unreported after one tick and turn |
| Backlog.ServerFallsBehind | src/server/game.cc:66-88 | a server just after its first connection whose next timer step leads to a quiescent point with a part unreported |
| Runs.OpenGood | src/server/game.cc:328-351 | a connection leads to a quiescent point |
| Runs.CloseGood | src/server/game.cc:450-462 | a disconnection leads to a quiescent point |
| Runs.ReceiveGood | src/server/game.cc:353-448 | a message leads to a quiescent point |
| Runs.TimerGood | src/server/game.cc:66-88 | a timer step leads to a quiescent point |
| Runs.NextGood | src/server/game.cc:66-88 | every event does |
| RunLaws.BootGood | src/game/world.cc:164-172 | a server without sessions whose food and bots are as after creation is at a quiescent point |
| RunLaws.InitGood | src/game/world.cc:164-200 | the server as initialised from proper draws is at a quiescent point |
| RunLaws.AlwaysGood | src/server/game.cc:66-88 | every point of every run is quiescent |
| RunLaws.DeltaSync | src/server/game.cc:163-273 | at every point each session finds its own snake and the other way round, and a living player's client shows exactly its viewport, which covers the head's surroundings |
| RunLaws.AlwaysInBounds | src/game/snake.h:113-127 | at every point speed, interval, leftover time, length and fullness are in bounds, every head is on the map and every tail in the death disc, living snakes lie wholly in it with no bit waiting, dying snakes are dead |
| RunLaws.TimerBuries | src/server/game.cc:172-198 | a timer step buries exactly the snakes alive before and finished after it |
| RunLaws.BuriedOnce | src/server/game.cc:168-198 | in a run no snake is buried twice, and a life ends only by burial or by its session closing |
| RunLaws.DeathIsDoom | src/game/world.cc:97-157 | a living snake is buried if and only if its tick moved it to where it is doomed among all snakes as ticked |
| Paces.ClockRuns | src/game/world.cc:76-87 | what the snakes were ticked by, plus what is left of the last frame, is what the timer gave |
| RunBodies.TickedAs | src/game/world.cc:88-95 | after the pass every snake is what its own tick made of it |
| RunBodies.AlwaysShaped | src/game/snake.cc:62-123 | gap invariant, whole runs: a bound on all starting gaps and moves bounds the gaps of all bodies for ever, dead ones included; likewise the tight profile |
| RunBodies.ProperSteps | src/game/snake.cc:54-59 | no move of a run exceeds 294 |
| RunBodies.PromptRunShaped | src/game/snake.cc:62-123 | in prompt runs any g of at least 42 that bounds the starting gaps bounds all gaps |
| RunBodies.AlwaysSettles | src/game/snake.cc:62-123 | settling, whole runs: as many moves of at most h as a snake has made, so many of its gaps are settled |
| RunBodies.PromptRunSettles | src/game/snake.cc:193-206 | in prompt runs a snake that has moved as often as it has gaps has the tight profile and does not outgrow the length behind its box radius, whatever body it started with |
| Lodging.AlwaysLodged | src/game/snake.cc:53-136 | in prompt runs the head and every part from the seventh on of a body once tight are registered where they lie, if they were then or have crossed into another sector since |
| Lodging.LodgedIff | src/game/sector.cc:115-163 | while such a part stays in one sector, it is registered there if and only if it was at first or a looked-at part crossed near it since |
| Lodging.SettledLodged | src/game/snake.cc:53-136 | the same from any starting body, once it has moved as often as it has gaps |
| Paces.AlwaysTravels | src/game/snake.cc:53-66 | while the speed is constant, the path of the head is as long as speed times the time ticked by, but for the time left over at both ends |
| RunBodies.AlwaysCatchesUp | src/server/game.cc:223-239 | while a snake keeps its length, every move brings the reported length one closer to it until it is exact |
| RunControls.AlwaysCloser | src/game/snake.cc:148-158 | while a snake goes on wanting the same speed, its speed is as close to it as its number of moves promises |
| RunControls.SpeedReached | src/game/snake.cc:148-158 | it has that speed after its third move |
| Paces.BoostReached | src/game/snake.cc:139-158 | a snake that goes on accelerating has speed 448 after its third move, one that does not has 185 |
| RunControls.AngleReached | src/game/snake.cc:27-51 | a player that goes on wanting a normalized angle has it if and only if the rotation since then covers the distance |
| Paces.NineRounds | src/game/snake.cc:27-51 | a player that goes on wanting a normalized angle has it after nine completed rotation intervals at the latest |
| Paces.AngleInTime | src/game/snake.cc:27-51 | it has it once it was ticked by 837 ms |
| Paces.ByteObeyed | src/server/game.cc:385-393 | a byte sets the wanted angle to that many 250ths of the circle and nothing else but its bit |
| Paces.ByteInTime | src/server/game.cc:385-393 | 837 ms after a byte below 250 the angle of the session's snake is that many 250ths of the circle, if it lives and no other byte came |
| RunBodies.AlwaysBalanced | src/game/snake.cc:350-425 | mass ledger, whole runs: while a snake is in the table its mass is what it was plus all food reported eaten less 33 per boosted move |
| RunMirrors.AlwaysMirrored | src/server/game.cc:163-292 | the food mirror holds at every point of a run for every position used properly in it |
| RunMirrors.FoodConvergesAt | src/packet/p_food.h:9-23 | at a position used properly a client that knows food there is right, and a living player's client knows it exactly if it is there, as long as its sector is in view |
| RunMirrors.FoodConverges | src/packet/p_food.h:9-23 | if all positions are used properly, a living player's client knows of each sector in view exactly the positions of its food |
| RunMirrors.DriftIsForever | src/server/game.cc:226-239 | while session and snake last, the client's part count keeps its distance from the server's counter |
| StatusMirror.AlwaysInformed | src/server/game.cc:163-256 | at every quiescent point of every run each client is shown every living snake with its head in whole pixels, angle and speed, and its own fullness, and was told of its own death exactly if it died |
| StatusMirror.AlwaysSent | src/server/game.cc:242-250 | over whole runs no change of a living player's fullness waits at a quiescent point |
| RunMirrors.BornExact | src/server/game.cc:337-341 | a client that is there when a snake is created counts its parts as the server does for ever after |
| RunMirrors.JoinDrift | src/server/game.cc:343-350 | a later joiner's count is the reported length plus what was unreported at the introduction; it is the true length right after joining and exactly while the server is as far behind as then |
| RunMirrors.JoinedWrong | src/server/game.cc:343-350 | once a snake has kept its length for enough moves, a later joiner's count is off by exactly what was unreported at the introduction |
| RunKnown.NextKnown | src/server/game.cc:328-351 | what each event does to the snakes a client knows: burials strike, connections add, nothing else changes them |
| RunKnown.KnownExactly | src/server/game.cc:343-350 | a client knows exactly the snakes in the table when it joined and those created since, except the ones buried since |
| AddSnakePacket.WriteBody | src/packet/p_snake.cc:17-37 | the loop with its running position writes exactly the delta-coded body |
| AddSnakePacket.ByteFaithful | src/packet/p_snake.cc:30-31 | a byte decodes to the offset or less than half below it if and only if the offset is in [-63.5, 64.5) |
| AddSnakePacket.ByteWraps | src/packet/p_snake.cc:30-31 | what happens just outside that range |
| AddSnakePacket.BoundedDrift | src/packet/p_snake.cc:17-37 | the k-th part after the tail decodes at or below its true coordinates by less than 0.2 + 0.5 k |
| AddSnakePacket.SizeAnnounced | src/packet/p_snake.h:32-34 | the announced size is two more than what is written |
| AddSnakePacket.PromptRunCodable | src/packet/p_snake.cc:17-37 | in prompt runs with starting gaps of at most 63.5 the packet of every snake of the table decodes with bounded drift |
| ServerObject.Endpoint.Send | src/server/game.h:70-78 | one packet more for one session, and its effect on that client |
| ServerObject.Endpoint.Broadcast | src/server/game.h:80-90 | one packet more for every session |
| ServerObject.GameServer.LoadSession | src/server/game.cc:503-519 | found if and only if the connection and its session exist |
| ServerObject.GameServer.SendFoodUpdate | src/server/game.cc:275-292 | every client gets exactly the eat, then the spawn packets; both lists are cleared |
| ServerObject.GameServer.SendPOVUpdateTo | src/server/game.cc:258-273 | the owner's client gains and loses exactly the listed sectors with their food; both lists are cleared |
| ServerObject.GameServer.ReportSnake | src/server/game.cc:200-252 | the live branch: rotation, length, move, food and view packets with the data they carry, in order, and the cleared bits |
| ServerObject.GameServer.BurySnake | src/server/game.cc:172-191 | the dying branch: the end packet to the own session, death food, packets, the dead bit |
| ServerObject.GameServer.TurnSnake | src/server/game.cc:164-253 | one round of the broadcast loop equals the model's turn and touches no other snake |
| ServerObject.GameServer.BroadcastUpdates | src/server/game.cc:163-256 | the loop equals all turns of the model in order; the change list is flushed |
| ServerObject.GameServer.RemoveDeadSnakes | src/server/game.cc:294-300 | exactly the listed bots leave table, connections and registry |
| ServerObject.GameServer.OnTimer | src/server/game.cc:66-88 | the handler equals the model's timer event and leads to a quiescent point with registry and table in agreement |
| ServerObject.GameServer.OnOpen | src/server/game.cc:328-351 | the handler, creation from the draws included, equals the model's connection event |
| ServerObject.GameServer.OnClose | src/server/game.cc:450-462 | the handler equals the model's disconnection event |
| ServerModel.Parse | src/server/game.cc:353-447 | exactly which payloads ask for an angle, for boosting or its end, for a skin, or for a pong |
| ServerModel.ParsesSkin | src/server/game.cc:400-409 | a name packet's skin is its second character after the type that is not white space, wherever white space stands |
| ServerObject.GameServer.OnMessage | src/server/game.cc:353-448 | the handler equals the model's message event for the parsed payload; the snake of a session is always found |
| ServerObject.GameServer.Init | src/server/game.cc:39-41 | a new server, initialised from proper draws, is at a quiescent point with registry and table in agreement |
| ServerObject.GameServer.Handle | src/server/game.cc:66-88 | every handler call leads from a quiescent point to the model's next one |
| ServerObject.GameServer.Run | src/server/game.cc:43-46 | handling proper calls one after the other goes through exactly the states of a run |

## Left out

- RunMirrors.FoodConvergesAt: only for positions used properly, because the wire identifies food by position; `FoodMirror.MisfiledForgotten` and `Reuse.OrderMatters` show what a misfiled piece and a position reused too soon lead to.
- RunBodies.PromptRunShaped: its tight half is for bodies that already have the profile; `PromptRunSettles` is the statement for the bodies that are laid.
- AddSnakePacket.WriteBody: the cast of an out-of-range float to a byte, undefined in C++, is modelled as wrap-around; a body of one part, on which the loop runs past its end, is excluded, and the fixed header fields are only counted.
- ServerObject.GameServer.OnMessage: the session's name, message, protocol version and stored skin are not kept; the stored skin that a name packet without a skin character repeats comes from outside.
- StatusMirror.AlwaysInformed: the wanted angle of rotation packets is not mirrored, and angle, speed and fullness are compared before the rounding to their wire formats; `AddSnakePacket` models that of bodies.
- SnakeObject.Snake.SteerBot: `atan2` is an input.
- Birth.BornTooLong: from 22 parts on the answer depends on the direction, since cutting to integers shortens bodies that point to larger coordinates.
- ServerObject.GameServer.Run: the event loop belongs to a library; it is modelled by calling the handlers in turn.
- ServerObject.GameServer.OnOpen: the draws are inputs; skin and length are not restricted to the ranges that are drawn.
- SnakeObject.Snake.UpdateEatenFood: requires the head on the map, as the source does without checking; the run theorems show it always is.
- Float rounding, `fast_sqrt`, `fast_inv_sqrt`, trigonometry, and the random generator.
- Wrap-around of snake ids, of 16-bit fullness and of 16-bit food coordinates.
- Websocket, TLS, timers, logging, the command line, packet time stamps and the debug broadcast.
- Fixed-size packet encoders, and prey, minimap, leaderboard and highscore packets.
- Bots' viewports, which are never updated after creation and never sent.
- The order of the new and old sector lists of a viewport, which are sets in the value model.
- `get_snake_score`, `intersect_segments` and the point-to-segment distance, which the simulation does not use.
