/**
 * Sequences of interactions with the command menu, proved from the
 * contracts of `CommandMenuComponent` alone.
 */
module Scenarios {
  import opened CommandMenu

  /**
   * Opening a branch and clicking it again restores the first level: when the
   * second level is hidden and every other first-level command is enabled,
   * the two clicks give back exactly the first-level flags we started from,
   * hide the second level and report nothing.
   */
  method OpenThenCloseBranch(menu: CommandMenuComponent, branch: Command, index: nat)
    requires menu.Initialized()
    requires |menu.commands| > 0 && !branch.HasMethod()
    requires !menu.displaySecondLevel
    requires forall c :: c in menu.commands && c != branch ==> !c.disabled
    modifies menu, menu.TopLevel(), menu.commandMenuSubject, menu.portalOutlet
    ensures menu.commands == old(menu.commands)
    ensures menu.commandMenuSubject == old(menu.commandMenuSubject)
    ensures !menu.displaySecondLevel
    ensures FlagsOf(menu.commands) == old(FlagsOf(menu.commands))
    ensures menu.subCommands == branch.children
    ensures menu.commandMenuSubject.emitted == old(menu.commandMenuSubject.emitted)
  {
    ghost var cmds := menu.commands;
    ghost var others := OthersOf(cmds, branch);
    ghost var before := FlagsOf(cmds);
    menu.OnCommandButtonClicked(branch, index);
    ghost var afterOpen := FlagsOf(cmds);
    assert afterOpen == SetOthers(before, others, true) by {
      assert forall j :: 0 <= j < |cmds| ==> afterOpen[j] == SetOthers(before, others, true)[j];
    }
    menu.OnCommandButtonClicked(branch, index);
    assert FlagsOf(cmds) == SetOthers(afterOpen, others, false) by {
      assert forall j :: 0 <= j < |cmds| ==> FlagsOf(cmds)[j] == SetOthers(afterOpen, others, false)[j];
    }
    CloseUndoesOpen(before, others);
  }

  /**
   * Starting from a first level where everything is enabled, opening a branch
   * leaves exactly the clicked branch enabled among the first level.
   */
  method OpenFromAllEnabled(menu: CommandMenuComponent, branch: Command, index: nat)
    requires menu.Initialized()
    requires |menu.commands| > 0 && !branch.HasMethod()
    requires !menu.displaySecondLevel
    requires forall c :: c in menu.commands ==> !c.disabled
    modifies menu, menu.TopLevel(), menu.commandMenuSubject, menu.portalOutlet
    ensures menu.commands == old(menu.commands)
    ensures menu.displaySecondLevel
    ensures FlagsOf(menu.commands) == OthersOf(menu.commands, branch)
  {
    ghost var cmds := menu.commands;
    ghost var before := FlagsOf(cmds);
    menu.OnCommandButtonClicked(branch, index);
    assert FlagsOf(cmds) == SetOthers(before, OthersOf(cmds, branch), true) by {
      assert forall j :: 0 <= j < |cmds| ==> FlagsOf(cmds)[j] == SetOthers(before, OthersOf(cmds, branch), true)[j];
    }
    OpenLeavesOnlyClickedEnabled(before, OthersOf(cmds, branch));
  }

  /**
   * Selecting a leaf disposes the overlay, and the framework then runs the
   * destroy hook: the channel sees the leaf followed by a cancellation, and
   * every flag of the tree is cleared.
   */
  method SelectLeafThenDestroy(menu: CommandMenuComponent, leaf: Command, index: nat)
    requires menu.Initialized() && leaf.HasMethod()
    modifies menu, menu.Tree(), menu.commandMenuSubject, menu.portalOutlet
    ensures menu.commandMenuSubject == old(menu.commandMenuSubject) && menu.portalOutlet == old(menu.portalOutlet)
    ensures menu.portalOutlet.disposed
    ensures menu.commandMenuSubject.emitted == old(menu.commandMenuSubject.emitted) + [Some(leaf), None]
    ensures forall c :: c in menu.commands ==> !c.disabled
    ensures forall c, d :: c in menu.commands && d in c.Children() ==> !d.disabled
  {
    menu.OnCommandButtonClicked(leaf, index);
    menu.NgOnDestroy();
  }

  /** The destroy hook has no guard: each call reports one more cancellation. */
  method DestroyTwice(menu: CommandMenuComponent)
    requires menu.Initialized()
    modifies menu.Tree(), menu.commandMenuSubject
    ensures menu.commandMenuSubject.emitted == old(menu.commandMenuSubject.emitted) + [None, None]
  {
    menu.NgOnDestroy();
    menu.NgOnDestroy();
  }

  /** Four leaves; clicking slot 2 reports that leaf and disposes the overlay. */
  method FourLeavesSelectThird() returns (chosen: Command, emitted: seq<Option<Command>>, disposed: bool)
    ensures chosen.methodName == Some("third")
    ensures emitted == [Some(chosen)]
    ensures disposed
  {
    var a := new Command(Some("first"), None, "a", "A", false);
    var b := new Command(Some("second"), None, "b", "B", false);
    chosen := new Command(Some("third"), None, "c", "C", false);
    var d := new Command(Some("fourth"), None, "d", "D", false);
    var overlay := new OverlayRef();
    var menu := new CommandMenuComponent();
    var observable := menu.InitComponent([a, b, chosen, d], overlay);
    menu.OnCommandButtonClicked(chosen, 2);
    emitted := observable.emitted;
    disposed := overlay.disposed;
  }

  /**
   * A menu opened on one branch with three children followed by two leaves,
   * after a click on the branch (slot 0 of 3): the two leaves are disabled,
   * the branch is not, and the children form the second level.
   */
  method OpenBranchMenu() returns (menu: CommandMenuComponent, observable: Subject, branch: Command, l1: Command, l2: Command, c1: Command, c2: Command, c3: Command)
    ensures fresh(menu) && fresh(observable) && fresh(menu.portalOutlet)
    ensures fresh(branch) && fresh(l1) && fresh(l2) && fresh(c1) && fresh(c2) && fresh(c3)
    ensures fresh(menu.Tree())
    ensures menu.Initialized() && menu.commandMenuSubject == observable && observable.emitted == []
    ensures c1.methodName == Some("child1") && c2.methodName == Some("child2") && c3.methodName == Some("child3")
    ensures branch.children == Some([c1, c2, c3]) && !branch.HasMethod()
    ensures menu.commands == [branch, l1, l2]
    ensures menu.displaySecondLevel && menu.subCommands == Some([c1, c2, c3])
    ensures l1.disabled && l2.disabled && !branch.disabled
    ensures !c1.disabled && !c2.disabled && !c3.disabled
  {
    c1 := new Command(Some("child1"), None, "c1", "C1", false);
    c2 := new Command(Some("child2"), None, "c2", "C2", false);
    c3 := new Command(Some("child3"), None, "c3", "C3", false);
    branch := new Command(None, Some([c1, c2, c3]), "br", "Branch", false);
    l1 := new Command(Some("leaf1"), None, "l1", "L1", false);
    l2 := new Command(Some("leaf2"), None, "l2", "L2", false);
    menu := new CommandMenuComponent();
    var overlay := new OverlayRef();
    observable := menu.InitComponent([branch, l1, l2], overlay);
    menu.OnCommandButtonClicked(branch, 0);
    assert l1.Children() == [] && l2.Children() == [];
    assert menu.Tree() <= {branch, l1, l2, c1, c2, c3};
  }

  /** From the opened branch, clicking the middle child (slot 1 of 3) reports exactly that child. */
  method BranchThenChild() returns (child: Command, emitted: seq<Option<Command>>)
    ensures child.methodName == Some("child2")
    ensures emitted == [Some(child)]
  {
    var menu, observable, branch, l1, l2, c1, c3;
    menu, observable, branch, l1, l2, c1, child, c3 := OpenBranchMenu();
    menu.OnCommandButtonClicked(child, 1);
    emitted := observable.emitted;
  }

  /**
   * From the opened branch the menu is torn down: a cancellation is reported
   * and every flag of both levels is cleared.
   */
  method BranchThenTeardown() returns (emitted: seq<Option<Command>>, allEnabled: bool)
    ensures emitted == [None]
    ensures allEnabled
  {
    var menu, observable, branch, l1, l2, c1, c2, c3 := OpenBranchMenu();
    assert menu.commands[0] == branch && menu.commands[1] == l1 && menu.commands[2] == l2;
    assert branch.Children()[0] == c1 && branch.Children()[1] == c2 && branch.Children()[2] == c3;
    menu.NgOnDestroy();
    emitted := observable.emitted;
    allEnabled := !branch.disabled && !l1.disabled && !l2.disabled && !c1.disabled && !c2.disabled && !c3.disabled;
  }
}
