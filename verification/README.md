# Camera-to-label synchronisation of the vispy game scene

The program shows a small 3D scene of box-shaped actors. Each actor carries a
floating text label. While the user drags the camera round with the primary
mouse button, every label is turned to follow the camera. This project models
that synchronisation and proves what it does:

- `interaction.dfy`, module `Interaction`: the rotation flag as a state
  machine over mouse events. A press of button 1 sets it, a release of
  button 1 clears it, and nothing else touches it. Moves recompute the labels
  only while it is set. Lemmas describe whole event sequences: the final flag
  and the number of recomputation passes.
- `placement.dfy`, module `Placement`: the label placement rule. The label's
  matrix becomes the camera matrix. Its centre becomes the negated camera
  centre, lifted by 0.25 on the last axis. The label is then translated by
  that centre. The engine's matrix transform is kept symbolic (`Transform`):
  assigning a matrix replaces it and a translation is recorded, not computed.
- `scene.dfy`, module `Scene`: the classes `Label`, `Actor` and `GameScene`
  with the fields the program updates in place, the three mouse handlers, the
  append-only actor registry, and the start-up code that spawns five actors.

Camera values are inputs. The rendering engine changes the camera's matrix
and centre as the user drags, outside the code modelled here, so each handler
takes the camera matrix and centre as they are when its event arrives.

An empty camera centre is handled as the program handles it. The lift at
line 78 indexes the last component of the freshly built centre list, which
raises an error when the list is empty. Lines 75 and 77 have already run by
then. The model returns `ok == false` with exactly that partial state. A move
pass stops at the first actor, and `AddActor` neither attaches nor appends.

## Model

`Interaction.Recomputes` (the move handler's gate, line 125), `Interaction.Final`,
`Interaction.Moves`, `Interaction.LastPrimary`, `Scene.Decimal` and
`Scene.ActorName` (the actor name format, line 161) and `Scene.Spawned` are
helper definitions used in the contracts below and have no rows of their own.

| member | source | states |
|---|---|---|
| Interaction.AfterPress | vispy_test_example.py:113-116 | after a press the flag is set iff it was set already or the button is button 1; any other button, or a second press, changes nothing |
| Interaction.AfterRelease | vispy_test_example.py:118-121 | after a release the flag is set iff it was set and the button is not button 1; a stray release while idle is a no-op |
| Interaction.Next | vispy_test_example.py:113-127 | only a button-1 press (sets) or a button-1 release (clears) changes the flag; moves and other buttons keep it |
| Interaction.Passes | vispy_test_example.py:123-127 | a sequence of events triggers at most one recomputation pass per move event |
| Interaction.FinalSnoc | vispy_test_example.py:113-121 | handling one more event after a sequence is one more step of the per-event transition |
| Interaction.FinalIsLastPrimary | vispy_test_example.py:113-121 | the flag after any event sequence is decided by its last button-1 event (press: rotating, release: idle), and is the initial flag when there is none |
| Interaction.PassesAppend | vispy_test_example.py:123-127 | passes over two consecutive sequences add up, the second starting from the flag the first leaves |
| Interaction.IdleWithoutPrimaryPress | vispy_test_example.py:113-127 | starting idle, a sequence without a button-1 press never rotates and triggers no pass |
| Interaction.DragRecomputesEveryMove | vispy_test_example.py:113-127 | while rotating and until button 1 is released, the flag stays set and every move triggers exactly one pass |
| Interaction.PressMoveReleaseMovePasses | vispy_test_example.py:113-127 | press 1, move, release 1, move: exactly one pass, and the scene ends idle |
| Placement.Negated | vispy_test_example.py:77 | the rebuilt centre has the camera centre's length and each component cancels the camera's |
| Placement.LabelCenterFor | vispy_test_example.py:77-78 | for a non-empty camera centre c, the label centre has c's length, equals -c[i] on every axis but the last, and 0.25 - c[last] on the last |
| Placement.LabelCenterInvolution | vispy_test_example.py:77-78 | applying the rule twice gives back the camera centre, so the label centre determines the camera centre |
| Placement.LabelCenterInjective | vispy_test_example.py:77-78 | distinct camera centres give distinct label centres |
| Placement.OriginCameraGivesInitialCenter | vispy_test_example.py:77-78 | a camera centred at the origin gives (0, 0, 0.25), the centre an actor is constructed with at line 50 |
| Scene.Label.constructor | vispy_test_example.py:8-31 | a label keeps its text, is 0.5 wide and 0.15 high, and its transform is a fresh transform translated to the given centre |
| Scene.Actor.constructor | vispy_test_example.py:36-55 | a new actor's box is 1.0*scale on all three sides, its transform is translated by pos, its label centre is (0, 0, 0.25), it owns one fresh label carrying its name, and it is not yet under the scene |
| Scene.Actor.UpdateLabelOrientation | vispy_test_example.py:57-80 | the label's transform becomes the camera matrix translated by LabelCenterFor(c) and the stored centre becomes LabelCenterFor(c), both functions of (m, c) alone, so a repeated call leaves the same state; an empty centre fails after writing the matrix and an empty centre |
| Scene.GameScene.constructor | vispy_test_example.py:104-105 | a new scene has no actors and is not rotating |
| Scene.GameScene.OnMousePress | vispy_test_example.py:113-116 | the flag moves by the press transition of Interaction.Next |
| Scene.GameScene.OnMouseRelease | vispy_test_example.py:118-121 | the flag moves by the release transition of Interaction.Next |
| Scene.GameScene.OnMouseMove | vispy_test_example.py:123-127 | never changes the flag or the registry; when idle no label changes; when rotating every registered actor gets the placement of (m, c); an empty centre fails at the first actor and leaves the others as they were |
| Scene.GameScene.AddActor | vispy_test_example.py:129-151 | the actor's label is placed against (m, c), the actor is attached and appended at the end with earlier entries untouched, duplicates included; on failure the registry is unchanged |
| Scene.GameScene.Replay | vispy_test_example.py:109-127 | delivering a sequence of events to the handlers in order leaves the flag at Interaction.Final of the sequence and the registry unchanged; a sequence with no recomputation pass changes no label, one with a pass leaves every label placed against (m, c); only an empty camera centre met by a pass ends the delivery early, with the first actor half-updated and the other actors' centres unchanged |
| Scene.UpdateTwiceNoDrift | vispy_test_example.py:75-80 | updating the same actor twice against the same camera gives the same outcome and the same centre and label transform both times: no accumulated drift |
| Scene.Setup | vispy_test_example.py:154-166 | a fresh, idle scene holding five actors actor_0 to actor_4 in order, each of scale 0.1 at (x, y, 0.15), attached, with its label placed against the initial camera |
| Scene.PressMoveReleaseMove | vispy_test_example.py:113-127 | on the classes: after press 1, move, release 1, move, the label holds the placement of the camera seen by the first move, not of the one seen by the second |

## Left out

- Rendering: the rectangle, text, box and plane visuals, colours, widths as drawn, the canvas size, the view, its border and the terrain (lines 6-31, 86-102) exist only in the rendering engine, as does the rectangle's own `center` argument (line 17); only the sizes the code passes and the label's transform are kept.
- The camera controller: how dragging changes the camera's matrix and centre happens inside the engine; the camera values are handler parameters.
- The numeric meaning of the engine's `translate` and of matrix assignment: `Transform` records them as terms. Only equalities between placements are stated, none that depends on the arithmetic.
- Handler registration and the event loop (lines 109-111, 175): the handlers are methods that callers invoke one event at a time; `Replay` delivers a sequence of events against one fixed camera, since camera changes between events happen in the engine. The program says nothing about what follows a handler that raises; `Replay` stops delivering at that point, a choice of this model rather than of the program.
- The dynamic-attribute guard `freeze`/`unfreeze` (lines 47, 53, 89, 107): it has no effect on the modelled state.
- The unused `actor` attribute of the scene (line 91) and the parent link from a label to its actor (line 51): no modelled code reads them.
- Scene.Actor.constructor: the `parent` argument is left out; the program only passes the default, none, and `attached` models being placed under the scene's view (line 150).
- Scene.Setup: the seeded random generator (lines 158-171) is left out; the coordinates are inputs, with the generator's ranges as preconditions.
- Floating point: coordinates are exact reals, so the negation and the +0.25 lift have no rounding.
- A render order for labels, a screen-space anchoring variant with a perspective divide, and wheel-driven recomputation are not in this source file, so they are not modelled.
