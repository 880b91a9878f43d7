/**
 * The two collapsible sidebars. Each flag is persisted in localStorage as
 * '1' (collapsed) or '0' and restored at mount, collapsed when nothing is
 * stored. `script.js` drives the same two keys through `setSidebar` and
 * `setRightSidebar`, with the element's `collapsed` class as the flag.
 */
module Sidebar {
  import opened Wrappers

  const LeftKey: string := "sidebarCollapsed"
  const RightKey: string := "rightSidebarCollapsed"

  /** `collapsed ? '1' : '0'`. */
  function Encode(collapsed: bool): string {
    if collapsed then "1" else "0"
  }

  /** The flag restored from a stored value: collapsed when nothing is stored, else collapsed iff '1'. */
  function Restore(saved: Option<string>): bool {
    match saved
    case None => true
    case Some(v) => v == "1"
  }

  /** `localStorage.getItem(key)`. */
  function GetItem(store: map<string, string>, key: string): Option<string> {
    if key in store then Some(store[key]) else None
  }

  /** The two flags and the localStorage entries. */
  datatype Panels = Panels(left: bool, right: bool, store: map<string, string>)

  /** Both refs start collapsed. */
  function Initial(store: map<string, string>): Panels {
    Panels(true, true, store)
  }

  function SetLeft(p: Panels, collapsed: bool): Panels {
    p.(left := collapsed, store := p.store[LeftKey := Encode(collapsed)])
  }

  function SetRight(p: Panels, collapsed: bool): Panels {
    p.(right := collapsed, store := p.store[RightKey := Encode(collapsed)])
  }

  function ToggleLeft(p: Panels): Panels {
    SetLeft(p, !p.left)
  }

  function ToggleRight(p: Panels): Panels {
    SetRight(p, !p.right)
  }

  /** The mount hook: restore the left flag, then the right one, writing each back. */
  function Mount(p: Panels): Panels {
    var l := SetLeft(p, Restore(GetItem(p.store, LeftKey)));
    SetRight(l, Restore(GetItem(l.store, RightKey)))
  }

  /** The stored text decodes to the flag it encodes. */
  lemma RestoreEncodeRoundTrip(collapsed: bool)
    ensures Restore(Some(Encode(collapsed))) == collapsed
    ensures Encode(collapsed) == "1" || Encode(collapsed) == "0"
  {
  }

  /** Each setter sets its own flag and key and leaves the other flag and every other key alone. */
  lemma SettersTouchOnlyTheirOwn(p: Panels, collapsed: bool)
    ensures var l := SetLeft(p, collapsed);
      && l.left == collapsed && l.right == p.right
      && GetItem(l.store, LeftKey) == Some(if collapsed then "1" else "0")
      && (forall k :: k != LeftKey ==> GetItem(l.store, k) == GetItem(p.store, k))
    ensures var r := SetRight(p, collapsed);
      && r.right == collapsed && r.left == p.left
      && GetItem(r.store, RightKey) == Some(if collapsed then "1" else "0")
      && (forall k :: k != RightKey ==> GetItem(r.store, k) == GetItem(p.store, k))
  {
  }

  /** Toggling negates the flag, so toggling twice restores it. */
  lemma ToggleTwiceRestores(p: Panels)
    ensures ToggleLeft(p).left == !p.left && ToggleRight(p).right == !p.right
    ensures ToggleLeft(ToggleLeft(p)).left == p.left && ToggleRight(ToggleRight(p)).right == p.right
    ensures ToggleLeft(ToggleLeft(p)).store == p.store[LeftKey := Encode(p.left)]
  {
  }

  /** Mount restores each flag from its key: collapsed when missing, otherwise collapsed iff '1'. */
  lemma MountRestores(p: Panels)
    ensures var m := Mount(p);
      && m.left == (LeftKey !in p.store || p.store[LeftKey] == "1")
      && m.right == (RightKey !in p.store || p.store[RightKey] == "1")
      && GetItem(m.store, LeftKey) == Some(Encode(m.left))
      && GetItem(m.store, RightKey) == Some(Encode(m.right))
  {
  }

  /** What a setter stores is what the next page load restores. */
  lemma PersistRoundTrip(p: Panels, left: bool, right: bool)
    ensures Mount(Initial(SetLeft(p, left).store)).left == left
    ensures Mount(Initial(SetRight(p, right).store)).right == right
  {
  }

  /** Mounting again changes nothing. */
  lemma MountIdempotent(p: Panels)
    ensures Mount(Mount(p)) == Mount(p)
  {
  }

  /** The refs of `useSidebar` and the localStorage entries. */
  class Sidebars {
    var leftSidebarCollapsed: bool
    var rightSidebarCollapsed: bool
    var storage: map<string, string>

    function Model(): Panels
      reads this
    {
      Panels(leftSidebarCollapsed, rightSidebarCollapsed, storage)
    }

    constructor (stored: map<string, string>)
      ensures Model() == Initial(stored)
    {
      leftSidebarCollapsed := true;
      rightSidebarCollapsed := true;
      storage := stored;
    }

    method SetLeftSidebar(collapsed: bool)
      modifies this
      ensures Model() == SetLeft(old(Model()), collapsed)
    {
      leftSidebarCollapsed := collapsed;
      storage := storage[LeftKey := if collapsed then "1" else "0"];
    }

    method SetRightSidebar(collapsed: bool)
      modifies this
      ensures Model() == SetRight(old(Model()), collapsed)
    {
      rightSidebarCollapsed := collapsed;
      storage := storage[RightKey := if collapsed then "1" else "0"];
    }

    method ToggleLeftSidebar()
      modifies this
      ensures Model() == ToggleLeft(old(Model()))
    {
      SetLeftSidebar(!leftSidebarCollapsed);
    }

    method ToggleRightSidebar()
      modifies this
      ensures Model() == ToggleRight(old(Model()))
    {
      SetRightSidebar(!rightSidebarCollapsed);
    }

    /** The close button of the right sidebar in `script.js`. */
    method CloseRightSidebar()
      modifies this
      ensures Model() == SetRight(old(Model()), true)
    {
      SetRightSidebar(true);
    }

    method OnMounted()
      modifies this
      ensures Model() == Mount(old(Model()))
    {
      var savedLeftState := GetItem(storage, LeftKey);
      if savedLeftState == None {
        SetLeftSidebar(true);
      } else {
        SetLeftSidebar(savedLeftState.value == "1");
      }
      var savedRightState := GetItem(storage, RightKey);
      if savedRightState == None {
        SetRightSidebar(true);
      } else {
        SetRightSidebar(savedRightState.value == "1");
      }
    }
  }
}
