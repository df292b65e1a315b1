/**
 * The per-window sessions of the add-on and the module-level registry that
 * starts and stops them (extension/bootstrap.js).
 *
 * The DOM and host calls a session makes collapse to fields of its
 * BrowserWindow: the controllers of the URL input, the share button, whether
 * the add-on's style sheet is loaded and whether the `customizationending`
 * listener is subscribed.
 */
module Bootstrap {
  import opened Wrappers
  import opened Controllers
  import opened ShareButton

  class BrowserWindow {
    /** The window this session wraps. */
    const window: WindowId
    /** Whether the window has a URL bar with an input element (the `urlInput` getter is not null). */
    const hasUrlBar: bool
    /** The controllers of the URL input element, index 0 asked first. */
    var chain: seq<Controller>
    /** The `shareButton` getter: the element with id social-share-button, if the window has one. */
    var shareButton: Option<Button>
    /** Doorhanger panels opened on the share button so far. */
    var panelsOpened: nat
    /** Whether the add-on's style sheet is loaded into the window. */
    var cssLoaded: bool
    /** Whether insertCopyController listens for `customizationending` on the window. */
    var customizeListening: bool

    /** A session over a window as the host presents it; nothing is installed yet. */
    constructor (window: WindowId, hasUrlBar: bool, chain: seq<Controller>, shareButton: Option<Button>)
      ensures this.window == window && this.hasUrlBar == hasUrlBar
      ensures this.chain == chain && this.shareButton == shareButton
      ensures panelsOpened == 0 && !cssLoaded && !customizeListening
    {
      this.window := window;
      this.hasUrlBar := hasUrlBar;
      this.chain := chain;
      this.shareButton := shareButton;
      panelsOpened := 0;
      cssLoaded := false;
      customizeListening := false;
    }

    /** The session's copy controller, as it appears in a chain. */
    function CopyController(): Controller
    {
      Copy(window)
    }

    /** insertCopyController: the copy controller goes in front of the URL input's controllers. */
    method InsertCopyController()
      requires hasUrlBar
      modifies this`chain
      ensures chain == [CopyController()] + old(chain)
      ensures chain[0] == CopyController() && chain[1..] == old(chain)
    {
      chain := [CopyController()] + chain;
    }

    /** removeCopyController: the copy controller is removed from the URL input's controllers by identity. */
    method RemoveCopyController()
      requires hasUrlBar
      modifies this`chain
      ensures chain == RemoveController(old(chain), CopyController())
    {
      chain := RemoveController(chain, CopyController());
    }

    /** animationEndListener: runs on the share button it is attached to, and removes the marker class. */
    method AnimationEndListener()
      requires shareButton.Some?
      modifies this`shareButton
      ensures shareButton == Some(EndAnimation(old(shareButton).value))
      ensures MarkerClass !in shareButton.value.classes
    {
      shareButton := Some(EndAnimation(shareButton.value));
    }

    /**
     * CopyController.doCommand(cmd).  The controller's only state is this
     * window, so its handler is an operation on the window.  On the copy
     * command an enabled share button opens a doorhanger panel and plays its
     * animation; then, whatever the command, the two scans pick the one
     * controller whose doCommand is called, returned as `target`.
     */
    method DoCommand(cmd: string) returns (target: Option<nat>)
      requires hasUrlBar
      modifies this`shareButton, this`panelsOpened
      ensures target == DelegateTarget(chain, cmd)
      ensures Activates(old(shareButton), cmd) ==>
        shareButton == Some(Activate(old(shareButton).value)) && panelsOpened == old(panelsOpened) + 1
      ensures !Activates(old(shareButton), cmd) ==>
        shareButton == old(shareButton) && panelsOpened == old(panelsOpened)
    {
      if cmd == CopyCommand {
        if shareButton.Some? && !shareButton.value.disabled {
          panelsOpened := panelsOpened + 1;
          shareButton := Some(Activate(shareButton.value));
        }
      }
      target := FindDelegate(chain, cmd);
    }

    /**
     * startup: a window without a URL bar is left alone.  Otherwise the session
     * is registered, listens for `customizationending`, loads its style sheet
     * and inserts its copy controller.
     */
    method Startup(registry: Registry)
      requires registry.Valid()
      modifies this, registry
      ensures registry.Valid()
      ensures !hasUrlBar ==> unchanged(this) && unchanged(registry)
      ensures hasUrlBar ==>
        && registry.weakMap == old(registry.weakMap)[window := this]
        && registry.listening == old(registry.listening)
        && registry.loadListeners == old(registry.loadListeners)
        && customizeListening && cssLoaded
        && chain == [CopyController()] + old(chain)
        && shareButton == old(shareButton) && panelsOpened == old(panelsOpened)
    {
      if !hasUrlBar {
        return;
      }
      registry.weakMap := registry.weakMap[window := this];
      customizeListening := true;
      cssLoaded := true;
      InsertCopyController();
    }

    /**
     * shutdown: stop listening for `customizationending`, unload the style
     * sheet, remove the copy controller and, when the window has a share
     * button, remove the marker class and the animationend listener.
     */
    method Shutdown()
      requires hasUrlBar
      modifies this
      ensures !customizeListening && !cssLoaded
      ensures chain == RemoveController(old(chain), CopyController())
      ensures shareButton == RestoreIfPresent(old(shareButton))
      ensures panelsOpened == old(panelsOpened)
    {
      customizeListening := false;
      cssLoaded := false;
      RemoveCopyController();
      if shareButton.Some? {
        shareButton := Some(Restore(shareButton.value));
      }
    }
  }

  /** The windows a startup over `windows` registers: those with a URL bar. */
  function StartedIds(windows: seq<BrowserWindow>): set<WindowId>
  {
    set w | w in windows && w.hasUrlBar :: w.window
  }

  /**
   * The weak map from windows to their sessions after the given windows have
   * been started in order, starting from `m`.  Every started window is mapped
   * to a session of its own window that has a URL bar; every other entry keeps
   * its earlier session.
   */
  function Registered(m: map<WindowId, BrowserWindow>, windows: seq<BrowserWindow>): (r: map<WindowId, BrowserWindow>)
    ensures r.Keys == m.Keys + StartedIds(windows)
    ensures forall id :: id in StartedIds(windows) ==> r[id] in windows && r[id].window == id && r[id].hasUrlBar
    ensures forall id :: id in m && id !in StartedIds(windows) ==> r[id] == m[id]
  {
    if windows == [] then m
    else
      var last := windows[|windows| - 1];
      var before := Registered(m, windows[..|windows| - 1]);
      assert windows == windows[..|windows| - 1] + [last];
      assert StartedIds(windows) == StartedIds(windows[..|windows| - 1]) + (if last.hasUrlBar then {last.window} else {});
      if last.hasUrlBar then before[last.window := last] else before
  }

  /** Module-level state: the weak map of sessions and the listeners the add-on registers with the host. */
  class Registry {
    /** browserWindowWeakMap: window to the session that started on it. */
    var weakMap: map<WindowId, BrowserWindow>
    /** Whether windowListener is registered with the window mediator. */
    var listening: bool
    /** Windows whose `load` listener (added by onOpenWindow) is registered. */
    var loadListeners: set<WindowId>

    /** Every registered session is the one of its window, and that window has a URL bar. */
    ghost predicate Valid()
      reads this
    {
      forall id :: id in weakMap ==> weakMap[id].window == id && weakMap[id].hasUrlBar
    }

    /** The state when the add-on's module is loaded. */
    constructor ()
      ensures Valid() && weakMap == map[] && !listening && loadListeners == {}
    {
      weakMap := map[];
      listening := false;
      loadListeners := {};
    }

    /**
     * The module's startup: start a session on every open browser window, in
     * the order the enumerator gives them, then listen for new windows.
     */
    method Startup(windows: seq<BrowserWindow>)
      requires Valid()
      requires forall i, j :: 0 <= i < j < |windows| ==> windows[i].window != windows[j].window
      modifies this, set w | w in windows
      ensures Valid() && listening && loadListeners == old(loadListeners)
      ensures weakMap == Registered(old(weakMap), windows)
      ensures forall w :: w in windows && w.hasUrlBar ==>
        && w.window in weakMap && weakMap[w.window] == w
        && w.customizeListening && w.cssLoaded
        && w.chain == [w.CopyController()] + old(w.chain)
        && w.shareButton == old(w.shareButton) && w.panelsOpened == old(w.panelsOpened)
      ensures forall w :: w in windows && !w.hasUrlBar ==> unchanged(w)
    {
      var i := 0;
      while i < |windows|
        invariant 0 <= i <= |windows|
        invariant Valid() && listening == old(listening) && loadListeners == old(loadListeners)
        invariant weakMap == Registered(old(weakMap), windows[..i])
        invariant forall k :: 0 <= k < i && windows[k].hasUrlBar ==>
          && windows[k].window in weakMap && weakMap[windows[k].window] == windows[k]
          && windows[k].customizeListening && windows[k].cssLoaded
          && windows[k].chain == [windows[k].CopyController()] + old(windows[k].chain)
          && windows[k].shareButton == old(windows[k].shareButton)
          && windows[k].panelsOpened == old(windows[k].panelsOpened)
        invariant forall k :: 0 <= k < i && !windows[k].hasUrlBar ==> unchanged(windows[k])
        invariant forall k :: i <= k < |windows| ==> unchanged(windows[k])
      {
        windows[i].Startup(this);
        assert windows[..i + 1][..i] == windows[..i];
        i := i + 1;
      }
      assert windows[..i] == windows;
      listening := true;
    }

    /**
     * windowListener.onOpenWindow: a `load` listener is added to the new
     * window; the session starts when it fires (OnWindowLoad).
     */
    method OnOpenWindow(id: WindowId)
      modifies this`loadListeners
      ensures loadListeners == old(loadListeners) + {id}
    {
      loadListeners := loadListeners + {id};
    }

    /**
     * The `load` listener of onOpenWindow: a new session starts on the window.
     * The listener was added as a capturing listener and is removed as a
     * non-capturing one, so the removal leaves it registered.
     */
    method OnWindowLoad(w: BrowserWindow)
      requires Valid() && w.window in loadListeners
      modifies this, w
      ensures Valid() && loadListeners == old(loadListeners) && listening == old(listening)
      ensures !w.hasUrlBar ==> unchanged(w) && weakMap == old(weakMap)
      ensures w.hasUrlBar ==>
        && weakMap == old(weakMap)[w.window := w]
        && w.customizeListening && w.cssLoaded
        && w.chain == [w.CopyController()] + old(w.chain)
        && w.shareButton == old(w.shareButton) && w.panelsOpened == old(w.panelsOpened)
    {
      w.Startup(this);
    }

    /**
     * The module's shutdown: stop listening for new windows first, then shut
     * down the session of every open window that has one in the weak map.
     * Entries are not removed from the map.
     */
    method Shutdown(windows: seq<WindowId>)
      requires Valid()
      requires forall i, j :: 0 <= i < j < |windows| ==> windows[i] != windows[j]
      modifies this`listening, weakMap.Values
      ensures Valid() && !listening && weakMap == old(weakMap)
      ensures forall id :: id in windows && id in weakMap ==>
        && !weakMap[id].customizeListening && !weakMap[id].cssLoaded
        && weakMap[id].chain == RemoveController(old(weakMap[id].chain), Copy(id))
        && weakMap[id].shareButton == RestoreIfPresent(old(weakMap[id].shareButton))
        && weakMap[id].panelsOpened == old(weakMap[id].panelsOpened)
      ensures forall id :: id !in windows && id in weakMap ==> unchanged(weakMap[id])
    {
      listening := false;
      var i := 0;
      while i < |windows|
        invariant 0 <= i <= |windows|
        invariant Valid() && !listening && weakMap == old(weakMap)
        invariant forall id :: id in windows[..i] && id in weakMap ==>
          && !weakMap[id].customizeListening && !weakMap[id].cssLoaded
          && weakMap[id].chain == RemoveController(old(weakMap[id].chain), Copy(id))
          && weakMap[id].shareButton == RestoreIfPresent(old(weakMap[id].shareButton))
          && weakMap[id].panelsOpened == old(weakMap[id].panelsOpened)
        invariant forall id :: id !in windows[..i] && id in weakMap ==> unchanged(weakMap[id])
      {
        var id := windows[i];
        if id in weakMap {
          weakMap[id].Shutdown();
        }
        assert windows[..i + 1] == windows[..i] + [id];
        i := i + 1;
      }
      assert windows[..i] == windows;
    }
  }
}
