/**
 * Windows as the workspace service sees them: the live record the platform
 * keeps for each top-level window, the snapshot (`WindowWrapper`) taken of
 * it at the start of an operation, the filters that pick the windows an
 * operation moves, and the specification of one whole reassignment pass.
 */
module Windows {
  import opened WorkspaceMath

  /** The platform's window type; only `Normal` windows are ever moved. */
  datatype WindowKind = Normal | Other

  /** The live state of one top-level window. */
  datatype Window = Window(kind: WindowKind, monitor: int, workspace: int)

  /**
   * A snapshot of one window: the handle by which the platform knows it and
   * the window's kind, monitor and workspace when the snapshot was taken.
   * The snapshot never changes afterwards, whatever happens to the window.
   */
  datatype WindowWrapper = WindowWrapper(handle: nat, initial: Window) {
    /** Whether the window was of the normal type when the snapshot was taken. */
    predicate IsNormal(): (normal: bool)
      ensures normal <==> initial.kind == Normal
    {
      initial.kind == Normal
    }

    function InitialMonitorIndex(): int {
      initial.monitor
    }

    function InitialWorkspaceIndex(): int {
      initial.workspace
    }
  }

  /** One wrapper per live window, in the platform's order, taken before any move. */
  function GetWindowWrappers(ws: seq<Window>): (views: seq<WindowWrapper>)
    ensures |views| == |ws|
    ensures forall i :: 0 <= i < |ws| ==>
              views[i].handle == i &&
              views[i].IsNormal() == (ws[i].kind == Normal) &&
              views[i].InitialMonitorIndex() == ws[i].monitor &&
              views[i].InitialWorkspaceIndex() == ws[i].workspace
  {
    seq(|ws|, i requires 0 <= i < |ws| => WindowWrapper(i, ws[i]))
  }

  /** Every window is on one of the `n` workspaces. */
  ghost predicate InRange(ws: seq<Window>, n: int) {
    forall i :: 0 <= i < |ws| ==> 0 <= ws[i].workspace < n
  }

  /**
   * A window moved by `delta` among `n` workspaces, from its live workspace,
   * to `NextWorkspace(n, w, delta)`: only its workspace changes, to an index
   * strictly between `-n` and `n` that is congruent to `w + delta`.
   */
  function Move(w: Window, n: int, delta: int): (r: Window)
    requires n >= 1
    ensures r.kind == w.kind && r.monitor == w.monitor
    ensures -n < r.workspace < n
    ensures (n + w.workspace + delta - r.workspace) % n == 0
  {
    w.(workspace := NextWorkspace(n, w.workspace, delta))
  }

  /**
   * Which windows an operation moves: a directed switch moves those on the
   * focused monitor, a resynchronisation those on every other monitor.
   */
  datatype Side = FocusedMonitor | OtherMonitors

  /** The monitor filter: the focused monitor itself, or any monitor but it. */
  predicate OnSide(monitor: int, focused: int, side: Side): (on: bool)
    ensures on <==> ((monitor == focused) <==> side.FocusedMonitor?)
  {
    match side
    case FocusedMonitor => monitor == focused
    case OtherMonitors => monitor != focused
  }

  /** Both filters of an operation: a normal window on the chosen side of `focused`. */
  predicate Selected(w: Window, focused: int, side: Side): (selected: bool)
    ensures selected ==> w.kind == Normal
    ensures selected <==> w.kind == Normal && ((w.monitor == focused) <==> side.FocusedMonitor?)
  {
    w.kind == Normal && OnSide(w.monitor, focused, side)
  }

  /**
   * Every normal window passes the filter of exactly one of the two
   * operations, and no other window passes either.
   */
  lemma FiltersSplitNormalWindows(w: Window, focused: int)
    ensures Selected(w, focused, FocusedMonitor) || Selected(w, focused, OtherMonitors) <==> w.kind == Normal
    ensures !(Selected(w, focused, FocusedMonitor) && Selected(w, focused, OtherMonitors))
  {
  }

  function Step(w: Window, n: int, focused: int, delta: int, side: Side): Window
    requires n >= 1
  {
    if Selected(w, focused, side) then Move(w, n, delta) else w
  }

  /**
   * The windows after one reassignment pass: every selected window moved by
   * `delta`, every other window as it was.
   */
  function Reassign(ws: seq<Window>, n: int, focused: int, delta: int, side: Side): (r: seq<Window>)
    requires n >= 1
    ensures |r| == |ws|
    ensures forall i :: 0 <= i < |ws| ==> r[i] == Step(ws[i], n, focused, delta, side)
  {
    if ws == [] then []
    else [Step(ws[0], n, focused, delta, side)] + Reassign(ws[1..], n, focused, delta, side)
  }

  /**
   * A pass changes only the workspace of selected windows: nothing else
   * about any window, and nothing at all about an unselected one.
   */
  lemma ReassignIsLocal(ws: seq<Window>, n: int, focused: int, delta: int, side: Side, i: int)
    requires n >= 1
    requires 0 <= i < |ws|
    ensures Reassign(ws, n, focused, delta, side)[i].kind == ws[i].kind
    ensures Reassign(ws, n, focused, delta, side)[i].monitor == ws[i].monitor
    ensures !Selected(ws[i], focused, side) ==> Reassign(ws, n, focused, delta, side)[i] == ws[i]
  {
  }

  /** Windows that are not normal are never moved, whichever side is chosen. */
  lemma NonNormalNeverMoved(ws: seq<Window>, n: int, focused: int, delta: int, side: Side, i: int)
    requires n >= 1
    requires 0 <= i < |ws| && ws[i].kind != Normal
    ensures Reassign(ws, n, focused, delta, side)[i] == ws[i]
  {
  }

  /**
   * A selected window on a valid workspace, moved by a step of at most `n`
   * downwards, lands exactly on `(n + w + delta) % n`, a valid workspace.
   */
  lemma ReassignTarget(ws: seq<Window>, n: int, focused: int, delta: int, side: Side, i: int)
    requires n >= 1
    requires 0 <= i < |ws| && 0 <= ws[i].workspace < n
    requires delta >= -n
    requires Selected(ws[i], focused, side)
    ensures Reassign(ws, n, focused, delta, side)[i].workspace == (n + ws[i].workspace + delta) % n
    ensures 0 <= Reassign(ws, n, focused, delta, side)[i].workspace < n
  {
    NextWorkspaceIsResidue(n, ws[i].workspace, delta);
  }

  /**
   * A pass by a step of at most `n` downwards keeps every window on a valid
   * workspace.
   */
  lemma ReassignPreservesRange(ws: seq<Window>, n: int, focused: int, delta: int, side: Side)
    requires n >= 1
    requires InRange(ws, n)
    requires delta >= -n
    ensures InRange(Reassign(ws, n, focused, delta, side), n)
  {
    var r := Reassign(ws, n, focused, delta, side);
    forall i | 0 <= i < |ws|
      ensures 0 <= r[i].workspace < n
    {
      if Selected(ws[i], focused, side) {
        NextWorkspaceInRange(n, ws[i].workspace, delta);
      }
    }
  }

  /** A pass that selects no window changes nothing. */
  lemma ReassignNothingSelected(ws: seq<Window>, n: int, focused: int, delta: int, side: Side)
    requires n >= 1
    requires forall i :: 0 <= i < |ws| ==> !Selected(ws[i], focused, side)
    ensures Reassign(ws, n, focused, delta, side) == ws
  {
  }

  /**
   * A pass by `-delta` on the same side of the same monitor undoes a pass by
   * `delta`: switching down and then up on a monitor restores every window.
   */
  lemma ReassignInverse(ws: seq<Window>, n: int, focused: int, delta: int, side: Side)
    requires n >= 1
    requires InRange(ws, n)
    requires -n <= delta <= n
    ensures Reassign(Reassign(ws, n, focused, delta, side), n, focused, -delta, side) == ws
  {
    var once := Reassign(ws, n, focused, delta, side);
    var twice := Reassign(once, n, focused, -delta, side);
    forall i | 0 <= i < |ws|
      ensures twice[i] == ws[i]
    {
      if Selected(ws[i], focused, side) {
        NextWorkspaceInRange(n, ws[i].workspace, delta);
        NextWorkspaceInverse(n, ws[i].workspace, delta);
      }
    }
  }

  /**
   * A resynchronisation by the shift from `previous` to `next` sends a
   * selected window on workspace `w` to `(w + next - previous) mod n`, so the
   * window stays as far ahead of the active workspace as it was before.
   */
  lemma ResyncKeepsOffset(ws: seq<Window>, n: int, focused: int, previous: int, next: int, i: int)
    requires n >= 1
    requires InRange(ws, n) && 0 <= previous < n && 0 <= next < n
    requires 0 <= i < |ws| && Selected(ws[i], focused, OtherMonitors)
    ensures Reassign(ws, n, focused, Shift(previous, next), OtherMonitors)[i].workspace ==
            (ws[i].workspace + next - previous) % n
    ensures (Reassign(ws, n, focused, Shift(previous, next), OtherMonitors)[i].workspace - next) % n ==
            (ws[i].workspace - previous) % n
  {
    ShiftKeepsOffset(n, ws[i].workspace, previous, next);
    NextWorkspaceInRange(n, ws[i].workspace, Shift(previous, next));
  }
}
