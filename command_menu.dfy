/**
 * The disclosure state machine of the radial command menu component.
 *
 * A `CommandMenuComponent` is handed a two-level tree of `Command` objects and
 * an overlay handle when the menu opens. Clicking a leaf reports it on the
 * result channel and disposes the overlay; clicking a branch shows or hides
 * its ring of children, disabling or re-enabling the other first-level
 * commands in place; the destroy hook clears every `disabled` flag and
 * reports a cancellation (`None`).
 */
module CommandMenu {
  import Layout

  datatype Option<+T> = None | Some(value: T)

  /**
   * A node of the command tree. Only `disabled` is ever written by the menu;
   * the other members are fixed when the tree is built. `methodName` is the
   * command's optional `method` identifier.
   */
  class Command {
    const methodName: Option<string>
    const children: Option<seq<Command>>
    const icon: string
    const tooltip: string
    var disabled: bool

    constructor (methodName: Option<string>, children: Option<seq<Command>>, icon: string, tooltip: string, disabled: bool)
      ensures this.methodName == methodName && this.children == children
      ensures this.icon == icon && this.tooltip == tooltip && this.disabled == disabled
    {
      this.methodName := methodName;
      this.children := children;
      this.icon := icon;
      this.tooltip := tooltip;
      this.disabled := disabled;
    }

    /**
     * The test `if (command.method)`: JavaScript counts an absent `method` and
     * an empty string as false, and any other string as true.
     */
    predicate HasMethod()
    {
      methodName.Some? && methodName.value != ""
    }

    /** The children a loop over `children` visits: none when the field is absent. */
    function Children(): seq<Command>
    {
      if children.Some? then children.value else []
    }
  }

  /** The result channel: every value pushed with `Next`, in order. */
  class Subject {
    var emitted: seq<Option<Command>>

    constructor ()
      ensures emitted == []
    {
      emitted := [];
    }

    method Next(v: Option<Command>)
      modifies this
      ensures emitted == old(emitted) + [v]
    {
      emitted := emitted + [v];
    }
  }

  /** The overlay that hosts the menu; disposing it is recorded as a flag. */
  class OverlayRef {
    var disposed: bool

    constructor ()
      ensures !disposed
    {
      disposed := false;
    }

    method Dispose()
      modifies this
      ensures disposed
    {
      disposed := true;
    }
  }

  /** The `disabled` flags of `cmds`, in order: the first level's state seen as a value. */
  function FlagsOf(cmds: seq<Command>): (r: seq<bool>)
    reads set c | c in cmds
    ensures |r| == |cmds|
    ensures forall j :: 0 <= j < |cmds| ==> r[j] == cmds[j].disabled
  {
    if cmds == [] then [] else [cmds[0].disabled] + FlagsOf(cmds[1..])
  }

  /** Which entries of `cmds` are a different object from `clicked` (the test `cmd !== command`). */
  function OthersOf(cmds: seq<Command>, clicked: Command): (r: seq<bool>)
    ensures |r| == |cmds|
    ensures forall j :: 0 <= j < |cmds| ==> (r[j] <==> cmds[j] != clicked)
  {
    if cmds == [] then [] else [cmds[0] != clicked] + OthersOf(cmds[1..], clicked)
  }

  /**
   * The flags after a branch click's loop: every entry marked in `isOther`
   * gets `flag`, every other entry keeps its value.
   */
  function SetOthers(flags: seq<bool>, isOther: seq<bool>, flag: bool): (r: seq<bool>)
    requires |isOther| == |flags|
    ensures |r| == |flags|
    ensures forall j :: 0 <= j < |flags| ==> r[j] == (if isOther[j] then flag else flags[j])
  {
    if flags == [] then []
    else [if isOther[0] then flag else flags[0]] + SetOthers(flags[1..], isOther[1..], flag)
  }

  /**
   * Closing a branch undoes opening it: when the other first-level commands
   * were enabled before the branch was opened, disabling them and then
   * re-enabling them gives back exactly the flags we started from, the
   * clicked command's own flag included.
   */
  lemma {:induction false} CloseUndoesOpen(flags: seq<bool>, isOther: seq<bool>)
    requires |isOther| == |flags|
    requires forall j :: 0 <= j < |flags| && isOther[j] ==> !flags[j]
    ensures SetOthers(SetOthers(flags, isOther, true), isOther, false) == flags
  {
    if flags != [] {
      CloseUndoesOpen(flags[1..], isOther[1..]);
    }
  }

  /**
   * Opening a branch from a first level where everything is enabled leaves
   * enabled exactly the entries that are the clicked command.
   */
  lemma {:induction false} OpenLeavesOnlyClickedEnabled(flags: seq<bool>, isOther: seq<bool>)
    requires |isOther| == |flags|
    requires forall j :: 0 <= j < |flags| ==> !flags[j]
    ensures SetOthers(flags, isOther, true) == isOther
  {
    if flags != [] {
      OpenLeavesOnlyClickedEnabled(flags[1..], isOther[1..]);
    }
  }

  class CommandMenuComponent {
    var commands: seq<Command>
    var subCommands: Option<seq<Command>>
    var displaySecondLevel: bool
    /** Anchor angle of the second ring in radians, as a multiple of pi; `None` until a branch is opened. */
    var secondLevelAngle: Option<real>
    var commandMenuSubject: Subject?
    var portalOutlet: OverlayRef?

    /** The first-level commands. */
    ghost function TopLevel(): set<Command>
      reads this
    {
      set c | c in commands
    }

    /** Every command of the tree: first level and the children of each first-level command. */
    ghost function Tree(): set<Command>
      reads this
    {
      TopLevel() + set c, d | c in commands && d in c.Children() :: d
    }

    /** `initComponent` has supplied the channel and the overlay. */
    predicate Initialized()
      reads this
    {
      commandMenuSubject != null && portalOutlet != null
    }

    /** The state in which the framework creates the component, before `initComponent`. */
    constructor ()
      ensures commands == [] && subCommands.None? && !displaySecondLevel && secondLevelAngle.None?
      ensures commandMenuSubject == null && portalOutlet == null
    {
      commands := [];
      subCommands := None;
      displaySecondLevel := false;
      secondLevelAngle := None;
      commandMenuSubject := null;
      portalOutlet := null;
    }

    /** Opens the menu on `cmds`: a fresh, empty result channel is created and returned. */
    method InitComponent(cmds: seq<Command>, overlay: OverlayRef) returns (observable: Subject)
      modifies this
      ensures commands == cmds && portalOutlet == overlay
      ensures observable == commandMenuSubject && fresh(observable) && observable.emitted == []
      ensures displaySecondLevel == old(displaySecondLevel)
      ensures subCommands == old(subCommands) && secondLevelAngle == old(secondLevelAngle)
    {
      commands := cmds;
      portalOutlet := overlay;
      commandMenuSubject := new Subject();
      observable := commandMenuSubject;
    }

    /** Destroy hook: clears every `disabled` flag on both levels and reports a cancellation. */
    method NgOnDestroy()
      requires commandMenuSubject != null
      modifies Tree(), commandMenuSubject
      ensures forall c :: c in commands ==> !c.disabled
      ensures forall c, d :: c in commands && d in c.Children() ==> !d.disabled
      ensures commandMenuSubject.emitted == old(commandMenuSubject.emitted) + [None]
    {
      for i := 0 to |commands|
        invariant forall j :: 0 <= j < i ==> !commands[j].disabled
        invariant forall j, d :: 0 <= j < i && d in commands[j].Children() ==> !d.disabled
        invariant commandMenuSubject.emitted == old(commandMenuSubject.emitted)
      {
        var cmd := commands[i];
        cmd.disabled := false;
        if cmd.children.Some? {
          var subs := cmd.children.value;
          for k := 0 to |subs|
            invariant !cmd.disabled
            invariant forall j :: 0 <= j < i ==> !commands[j].disabled
            invariant forall j, d :: 0 <= j < i && d in commands[j].Children() ==> !d.disabled
            invariant forall m :: 0 <= m < k ==> !subs[m].disabled
            invariant commandMenuSubject.emitted == old(commandMenuSubject.emitted)
          {
            assert subs[k] in old(Tree()) by { assert commands[i] in commands && subs[k] in commands[i].Children(); }
            subs[k].disabled := false;
          }
        }
      }
      commandMenuSubject.Next(None);
    }

    /**
     * Click on `command`, shown in slot `index` of its ring.
     * A command with a method is reported and the overlay disposed. Otherwise
     * the click closes the open second level, or opens `command`'s children.
     */
    method OnCommandButtonClicked(command: Command, index: nat)
      requires Initialized()
      requires !command.HasMethod() && !displaySecondLevel ==> |commands| > 0
      modifies this, TopLevel(), commandMenuSubject, portalOutlet
      ensures commands == old(commands)
      ensures commandMenuSubject == old(commandMenuSubject) && portalOutlet == old(portalOutlet)
      // the clicked command's own flag is never written
      ensures command.disabled == old(command.disabled)
      // a leaf is reported once and the overlay disposed; nothing else changes
      ensures command.HasMethod() ==>
        && commandMenuSubject.emitted == old(commandMenuSubject.emitted) + [Some(command)]
        && portalOutlet.disposed
        && (forall c :: c in commands ==> c.disabled == old(c.disabled))
        && displaySecondLevel == old(displaySecondLevel)
        && subCommands == old(subCommands)
        && secondLevelAngle == old(secondLevelAngle)
      // a branch never reports anything and never disposes the overlay
      ensures !command.HasMethod() ==>
        && commandMenuSubject.emitted == old(commandMenuSubject.emitted)
        && portalOutlet.disposed == old(portalOutlet.disposed)
      // closing: the second level is hidden and the other first-level commands are re-enabled
      ensures !command.HasMethod() && old(displaySecondLevel) ==>
        && !displaySecondLevel
        && (forall c :: c in commands ==> c.disabled == (if c == command then old(c.disabled) else false))
        && subCommands == old(subCommands)
        && secondLevelAngle == old(secondLevelAngle)
      // opening: the other first-level commands are disabled and the children shown at this slot's anchor
      ensures !command.HasMethod() && !old(displaySecondLevel) ==>
        && displaySecondLevel
        && (forall c :: c in commands ==> c.disabled == (if c == command then old(c.disabled) else true))
        && subCommands == command.children
        && secondLevelAngle == Some(Layout.AnchorAngleInPi(index, |commands|))
    {
      if command.HasMethod() {
        commandMenuSubject.Next(Some(command));
        portalOutlet.Dispose();
      } else {
        if displaySecondLevel {
          displaySecondLevel := false;
          SetOthersDisabled(command, false);
        } else {
          SetOthersDisabled(command, true);
          subCommands := command.children;
          secondLevelAngle := Some(Layout.AnchorAngleInPi(index, |commands|));
          displaySecondLevel := true;
        }
      }
    }

    /** The loop shared by both branch cases: every first-level command other than `command` gets `flag`. */
    method SetOthersDisabled(command: Command, flag: bool)
      modifies TopLevel()
      ensures forall c :: c in commands ==> c.disabled == (if c == command then old(c.disabled) else flag)
      ensures command.disabled == old(command.disabled)
      ensures FlagsOf(commands) == SetOthers(old(FlagsOf(commands)), OthersOf(commands, command), flag)
    {
      for i := 0 to |commands|
        invariant forall c :: c in commands[..i] ==> c.disabled == (if c == command then old(c.disabled) else flag)
        invariant forall c :: c in commands && c !in commands[..i] ==> c.disabled == old(c.disabled)
        invariant command.disabled == old(command.disabled)
      {
        var cmd := commands[i];
        if cmd != command {
          cmd.disabled := flag;
        }
      }
      assert forall j :: 0 <= j < |commands| ==>
        FlagsOf(commands)[j] == SetOthers(old(FlagsOf(commands)), OthersOf(commands, command), flag)[j];
    }
  }
}
