# Radial command menu: disclosure state machine and angular layout

This project models the core of `CommandMenuComponent`, an Angular popup that
shows a ring of command buttons around an anchor point. A command either has a
`method` (a leaf) or `children` (a branch). Clicking a leaf reports it to the
component that opened the menu and disposes the overlay. Clicking a branch
disables the other first-level commands and shows a second ring with the
branch's children; clicking the branch again hides that ring and re-enables
the others. When the component is destroyed, every `disabled` flag of the tree
is cleared and a `null` (here `None`) is reported as the cancellation value.

The project has three modules:

- `Layout` (`layout.dfy`): the pure angle formulas. Slot `i` of `n` buttons is
  rotated by `-90 + i*(360/n)` degrees and its icon by `90 - i*(360/n)`. The
  second ring's anchor angle comes from the same formula, in radians. Angles
  are exact `real` values: the ideal form of the JavaScript number computation.
- `CommandMenu` (`command_menu.dfy`): the classes `Command` (mutable
  `disabled` flag; `method` is the field `methodName`, since `method` is a Dafny
  keyword), `Subject` (the result channel as the sequence of values pushed
  into it), `OverlayRef` (disposal as a `disposed` flag) and
  `CommandMenuComponent` with its fields and its methods `InitComponent`,
  `NgOnDestroy` and `OnCommandButtonClicked`. These methods update the
  command objects in place, with loops, just as the TypeScript does. Reference
  identity (`cmd !== command`) is Dafny object identity.
  Functions `FlagsOf`, `OthersOf` and `SetOthers` give the first level's flags
  as a value, and the lemma `CloseUndoesOpen` proves the open/close round trip
  on that value, by induction.
- `Scenarios` (`scenarios.dfy`): interaction sequences proved from the
  component's contracts alone. They cover the open/close round trip, opening
  from an all-enabled first level, a leaf selection followed by the destroy
  hook, and two destroy calls. Two concrete menus are also checked: four leaves,
  and one branch with three children beside two leaves. Four scenarios run on
  them.

JavaScript truthiness is modelled explicitly. `if (command.method)` is false
both when `method` is absent and when it is the empty string, so
`Command.HasMethod()` requires a non-empty name. `if (cmd.children)` is true for
any array, even an empty one.

A new component has `displaySecondLevel` set to `false`. Its other fields
(`commands`, `subCommands`, `secondLevelPosition`, `commandMenuSubject` and
`portalOutlet`) stay `undefined` until `initComponent` runs or a branch is
opened. The model starts those as `[]`, `None` or `null`. The click handler dereferences the channel
and may dereference the overlay, so it requires `Initialized()`: both are set.
The destroy hook uses only the channel, so it requires only that. Without them
the TypeScript would throw.

## Behaviour worth knowing

- The icon counter-rotation is the exact negation of the button rotation:
  `90 - i*(360/n)` (command-menu.component.ts:145).
- `ngOnDestroy` has no guard. Every call pushes one more `null`
  (`Scenarios.DestroyTwice`), so a second teardown is not a no-op.
- The channel can receive more than one value. A leaf click pushes the
  command and then disposes the overlay. In Angular, disposing runs
  `ngOnDestroy`, which then pushes `null` (`Scenarios.SelectLeafThenDestroy`).
- Calling `initComponent` again replaces the channel with a fresh one. The old
  channel gets no final value (`InitComponent` ensures a fresh, empty channel).

## Model

| member | source | states |
|---|---|---|
| `Layout.Step` | command-menu.component.ts:139 | each of `n` buttons gets a positive share of the circle, and `n` shares make exactly 360 degrees |
| `Layout.ButtonRotation` | command-menu.component.ts:139 | the button rotation `-90 + i*(360/n)`; slot 0 is rotated by -90 degrees, so it points straight up |
| `Layout.AdjacentSlotsOneStepApart` | command-menu.component.ts:139 | neighbouring slots are exactly `360/n` degrees apart |
| `Layout.SlotsIncreasing` | command-menu.component.ts:139 | a later slot is always rotated further clockwise |
| `Layout.RotationWithinOneTurn` | command-menu.component.ts:139 | for `0 <= i < n` the rotation lies in `[-90, 270)` |
| `Layout.FullTurn` | command-menu.component.ts:139 | slot `n` would land one full turn after slot 0, so the slots divide the circle evenly |
| `Layout.SlotsNeverOverlap` | command-menu.component.ts:139 | two different slots of one ring have different angles, less than a full turn apart |
| `Layout.FourButtons` | command-menu.component.ts:139 | with four buttons the slots are at -90, 0, 90 and 180 degrees |
| `Layout.IconRotation` | command-menu.component.ts:143-147 | the icon rotation is exactly the negation of its button's rotation, for every slot and ring size |
| `Layout.AnchorAngleInPi` | command-menu.component.ts:113 | the second ring's anchor angle, in radians, is the button rotation of the clicked slot times pi/180 |
| `CommandMenu.Command.constructor` | command-menu.component.ts:18-24 | a command record holds the given optional method, optional children, icon, tooltip and flag |
| `CommandMenu.FlagsOf` | command-menu.component.ts:18-24 | the first level's state as a value: one entry per command, in order, equal to that command's `disabled` flag |
| `CommandMenu.OthersOf` | command-menu.component.ts:99 | marks exactly the entries that are a different object from the clicked command (`cmd !== command`) |
| `CommandMenu.SetOthers` | command-menu.component.ts:98-109 | the flags after a branch click's loop: marked entries get the new flag, the others keep theirs, and the length is unchanged |
| `CommandMenu.CloseUndoesOpen` | command-menu.component.ts:95-118 | if the other first-level commands were enabled, disabling them and then re-enabling them gives back exactly the starting flags |
| `CommandMenu.OpenLeavesOnlyClickedEnabled` | command-menu.component.ts:104-109 | opening from an all-enabled first level leaves enabled exactly the entries that are the clicked command |
| `CommandMenu.Subject.Next` | command-menu.component.ts:92 | pushing a value appends exactly that value to what the channel has seen |
| `CommandMenu.OverlayRef.Dispose` | command-menu.component.ts:93 | after disposal the overlay is marked disposed |
| `CommandMenu.CommandMenuComponent.constructor` | command-menu.component.ts:51-58 | a new component shows only the first level (`displaySecondLevel` is false) and has no channel or overlay yet |
| `CommandMenu.CommandMenuComponent.InitComponent` | command-menu.component.ts:129-135 | `commands` and the overlay are the given ones; the returned channel is fresh and empty and becomes the component's channel; `displaySecondLevel`, `subCommands` and the anchor are not reset |
| `CommandMenu.CommandMenuComponent.NgOnDestroy` | command-menu.component.ts:66-79 | every first-level command and every child of one ends enabled, and exactly one `None` is appended to the channel |
| `CommandMenu.CommandMenuComponent.OnCommandButtonClicked` | command-menu.component.ts:87-121 | a leaf is appended to the channel and the overlay disposed, with no flag or level change; with the second level shown, a branch click hides it and enables every other first-level command; with it hidden, a branch click disables every other first-level command, shows the branch's children and sets the anchor from the slot; the clicked command's own flag never changes and a branch click reports nothing |
| `CommandMenu.CommandMenuComponent.SetOthersDisabled` | command-menu.component.ts:98-109 | every first-level command other than the clicked one (by reference) gets the given flag, and the clicked one keeps its flag; on the flags as a value this is `SetOthers` of the old flags |
| `Scenarios.OpenThenCloseBranch` | command-menu.component.ts:95-118 | with the second level hidden and the other first-level commands enabled, opening a branch and clicking it again gives back exactly the starting first-level flags, hides the second level and reports nothing |
| `Scenarios.OpenFromAllEnabled` | command-menu.component.ts:104-118 | opening a branch from an all-enabled first level shows the second level and leaves enabled exactly the first-level entries that are the branch |
| `Scenarios.OpenBranchMenu` | command-menu.component.ts:104-135 | on a menu of one branch with three children and two leaves, clicking the branch disables both leaves but not the branch or its children, and shows the children as the second level |
| `Scenarios.SelectLeafThenDestroy` | command-menu.component.ts:66-93 | a leaf selection followed by the destroy hook that disposal triggers puts the leaf and then `None` on the channel, and clears every flag of the tree |
| `Scenarios.DestroyTwice` | command-menu.component.ts:66-79 | two destroy calls append two `None` values |
| `Scenarios.FourLeavesSelectThird` | command-menu.component.ts:91-93 | with four leaves, clicking slot 2 reports exactly that leaf and disposes the overlay |
| `Scenarios.BranchThenChild` | command-menu.component.ts:91-93 | after that branch is opened, clicking its middle child reports exactly that child |
| `Scenarios.BranchThenTeardown` | command-menu.component.ts:66-79 | tearing down after that branch is opened reports only `None` and leaves every flag on both levels cleared |

## Left out

- The `@Component` decorator and the `displayCommands` enter animation (command-menu.component.ts:29-50) are framework metadata and animation timing.
- `e.stopImmediatePropagation()` (command-menu.component.ts:89) is DOM event plumbing, so the event parameter is dropped from `OnCommandButtonClicked`.
- The internals of `OverlayRef.dispose()` are left out, and so is the fact that Angular runs `ngOnDestroy` when the overlay is disposed. Disposal is a flag, and `NgOnDestroy` is a separate method; `Scenarios.SelectLeafThenDestroy` composes the two.
- rxjs `Subject` and `Observable` mechanics are left out (subscription, `asObservable`'s read-only view). The channel is the sequence of values pushed into it, and `InitComponent` returns the subject itself.
- `Math.sin`, `Math.cos` and the px strings of `secondLevelPosition` (command-menu.component.ts:114-117) are floating-point trigonometry. The model keeps only the radian anchor angle, stored as a multiple of pi in `secondLevelAngle`.
- CSS string building (`translate(...)`, `vertical-align`) and the constant offsets `CMD_BUTTON_SIZE` and `DISTANCE_FROM_ORIGIN` (command-menu.component.ts:26-27) are left out. Only the numeric rotations are modelled.
- IEEE rounding of `360 / n` is left out. Division is exact `real` division.
- CommandMenu.CommandMenuComponent.OnCommandButtonClicked: requires a non-empty `commands` when it opens a branch. With no first-level commands the source divides by zero: the angle is Infinity or NaN, and `Math.sin`/`Math.cos` of that is NaN, so both position values become `NaNpx`. That case is not modelled.
- Layout.ButtonRotation and the other layout functions require `n > 0`. For `n = 0` JavaScript yields Infinity or NaN, and no ring of zero buttons is ever rendered.
- The `commands` and `children` arrays are modelled as sequences of object references, because the component never writes the arrays themselves, only the `disabled` flags of their elements.
