# share-button-study: copy interception, modelled in Dafny

The add-on animates the toolbar's share button when the user copies from the
URL bar. It does this by putting a `CopyController` at index 0 of the URL
input's ordered list of command controllers. The host asks controllers in
order, so the copy controller sees `cmd_copy` first. On `cmd_copy` it plays
the share button's animation, but only when the button exists and is not
disabled. Then, for every command, it forwards the command to the next
controller after it that supports it, calling that controller's `doCommand`
itself without asking its `isCommandEnabled`. It finds that controller with two linear scans:
- the first scan looks for the first controller that claims the private
  sentinel command `share-button-study`, and steps one past it;
- the second scan calls `doCommand` on the first later controller that
  supports the command.

A `BrowserWindow` session installs all this on one window and tears it down
again. The module-level `startup`/`shutdown` start a session on every open
browser window and keep them in a weak map.

Files:
- `wrappers.dfy`: the `Option` type.
- `controllers.dfy` (module `Controllers`): the controller chain as
  `seq<Controller>`. It holds what `CopyController` answers to
  `supportsCommand`/`isCommandEnabled`, the delegation target as a function
  (`DelegateTarget`), and the two scans as a loop method proved equal to it
  (`FindDelegate`). It also holds the host list's `removeController`, and
  lemmas about inserting the copy controller: transparency, round trip, and
  double insertion.
- `share_button.dfy` (module `ShareButton`): the share button's state and the
  three changes the add-on makes to it, with lemmas over any sequence of
  copies and animation ends.
- `bootstrap.dfy` (module `Bootstrap`): class `BrowserWindow`, the per-window
  session. Its fields stand for the DOM state it changes. Class `Registry` is
  the module-level weak map and listeners.

The `urlInput` getter is the constant `hasUrlBar` together with the field
`chain`, the controllers of that input. The `shareButton` getter is the field
`shareButton`. A delegation is modelled as the index of the one controller
whose `doCommand` the copy controller calls (extension/bootstrap.js:66). The
model does not follow that call; it returns the target's index.

Where the code and the intended design differ, the model follows the code:
- teardown has no guard against running twice;
- weak-map entries are never removed, and `onCloseWindow` is empty;
- the `load` listener of `onOpenWindow` is added as a capturing listener
  (extension/bootstrap.js:197) but removed as a non-capturing one
  (extension/bootstrap.js:192), so it stays registered
  (`Registry.OnWindowLoad` keeps `loadListeners`);
- module shutdown does not remove pending `load` listeners, so a window
  opened before shutdown but loaded after it still gets a session.

## Model

| member | source | states |
|---|---|---|
| Controllers.Supports | extension/bootstrap.js:15 | the copy controller supports exactly `cmd_copy` and the sentinel `share-button-study`; a host controller supports its own command set |
| Controllers.IsCommandEnabled | extension/bootstrap.js:17 | the copy controller reports every command as enabled |
| Controllers.FirstSentinel | extension/bootstrap.js:53-62 | the first scan stops at the first controller claiming the sentinel; no earlier controller claims it; it ends at the chain length when none does |
| Controllers.FirstSupporting | extension/bootstrap.js:63-69 | the second scan finds the first controller at or after its start that supports the command, or none when no later controller does |
| Controllers.DelegateTarget | extension/bootstrap.js:53-69 | at most one controller is delegated to: the first one strictly after the first sentinel controller that supports the command; none if there is no such controller, and none if no controller claims the sentinel |
| Controllers.FindDelegate | extension/bootstrap.js:53-69 | the two loops with their `break`s compute exactly `DelegateTarget` |
| Controllers.RemoveController | extension/bootstrap.js:109 | removal by identity drops the first identical entry and keeps the others in order; a chain without it is unchanged |
| Controllers.FirstSupportingBehind | extension/bootstrap.js:63-69 | with one controller put in front, the second scan finds the same controller one index later |
| Controllers.InsertedCopyForwardsLikeHost | extension/bootstrap.js:53-69 | after insertion at index 0 into a chain with no copy controller, every command is forwarded to the controller the host would have picked without the interceptor, and that controller is a host controller |
| Controllers.HostLookupSkipsCopy | extension/bootstrap.js:15 | for any command other than `cmd_copy` and the sentinel, the host's own lookup passes over the inserted copy controller and picks the same controller as before |
| Controllers.ForwardIgnoresEnabled | extension/bootstrap.js:63-69 | for `cmd_copy` the host's lookup stops at the copy controller, which answers enabled, and the copy controller forwards to a controller that reports the command disabled, since the forward never asks `isCommandEnabled` |
| Controllers.RemoveAfterInsert | extension/bootstrap.js:102-110 | inserting the copy controller at index 0 and then removing it by identity restores the original chain |
| Controllers.DoubleInsertionSelfTargets | extension/bootstrap.js:56-68 | with the copy controller inserted twice, `cmd_copy` goes to the second copy, which rescans and selects itself again, so forwarding never reaches the host |
| ShareButton.Activate | extension/bootstrap.js:46-47 | a copy attaches the animationend listener and adds the marker class; nothing else about the button changes |
| ShareButton.EndAnimation | extension/bootstrap.js:112-117 | the animationend listener removes the marker class only; the listener stays attached |
| ShareButton.Restore | extension/bootstrap.js:173-174 | shutdown cleanup removes the marker class and detaches the listener, leaving other classes alone |
| ShareButton.RestoreIfPresent | extension/bootstrap.js:170-175 | the cleanup is applied only when a share button exists |
| ShareButton.ReplayInvariant | extension/bootstrap.js:46-47 | copies and animation ends never change `disabled`, and the marker class is never present without the animationend listener that removes it |
| ShareButton.MarkerIffLastCopied | extension/bootstrap.js:46-47 | on an enabled button whose marker, if any, has its listener, the marker class is present exactly when no animation end has come since the latest copy; an animation end acts only through the attached listener |
| ShareButton.RestoreAfterReplay | extension/bootstrap.js:170-175 | after any sequence of copies and animation ends, shutdown leaves the button as it would have left the untouched button |
| Bootstrap.BrowserWindow.constructor | extension/bootstrap.js:76-88 | a new session wraps a window and has installed nothing yet |
| Bootstrap.BrowserWindow.InsertCopyController | extension/bootstrap.js:102-105 | the copy controller becomes index 0, and the previous controllers follow in their original order |
| Bootstrap.BrowserWindow.RemoveCopyController | extension/bootstrap.js:107-110 | the copy controller is removed from the chain by identity |
| Bootstrap.BrowserWindow.AnimationEndListener | extension/bootstrap.js:112-117 | the marker class is gone from the share button afterwards |
| Bootstrap.BrowserWindow.DoCommand | extension/bootstrap.js:19-70 | on `cmd_copy` with an existing, non-disabled button: one panel is opened, the listener is attached and the marker class is added; otherwise the button is untouched; in every case the delegation target is `DelegateTarget` of the chain |
| Bootstrap.BrowserWindow.Startup | extension/bootstrap.js:139-157 | without a URL bar nothing changes: no registration, no listener, no CSS, no controller; otherwise all four happen, and the copy controller is at index 0 |
| Bootstrap.BrowserWindow.Shutdown | extension/bootstrap.js:159-176 | always unsubscribes, unloads the CSS and removes the copy controller; touches the share button only when one exists |
| Bootstrap.Registered | extension/bootstrap.js:204-211 | after startup the weak map's keys are the earlier keys plus the windows that have a URL bar; each started window id maps to a session of that window with a URL bar, and every other earlier entry keeps its session |
| Bootstrap.Registry.constructor | extension/bootstrap.js:7 | the weak map starts empty and no listener is registered |
| Bootstrap.Registry.Startup | extension/bootstrap.js:204-215 | every enumerated window with a URL bar is started and registered; every other window is untouched; then the new-window listener is added |
| Bootstrap.Registry.OnOpenWindow | extension/bootstrap.js:182-198 | a `load` listener is registered for the new window |
| Bootstrap.Registry.OnWindowLoad | extension/bootstrap.js:191-195 | when the window loads, a session starts on it as in `Startup` (share button and panel count untouched), and the `load` registration is still present afterwards |
| Bootstrap.Registry.Shutdown | extension/bootstrap.js:217-230 | the new-window listener is removed first; only windows found in the weak map are shut down, each as in `BrowserWindow.Shutdown` with its panel count kept; the others and the map itself are unchanged |

## Left out

- The doorhanger panel and its iframe (extension/bootstrap.js:24-43) are DOM construction. Each one is counted in `panelsOpened` and nothing else is modelled.
- Loading and removing the style sheet through `nsIDOMWindowUtils` (extension/bootstrap.js:127-137) is the flag `cssLoaded`.
- `QueryInterface` and the window enumerator (extension/bootstrap.js:186-187, 206-208, 222-224) become a sequence of windows (startup) or window ids (shutdown). The enumerator yields each window once.
- The weak map's garbage-collection semantics (extension/bootstrap.js:7) are not modelled. It is an ordinary map.
- The copy controller's own call of `doCommand` on its target (extension/bootstrap.js:66) is not followed; the model returns the target's index. When that target is itself a copy controller, the call recurses, and the model does not follow the recursion.
- The host's dispatch asks a controller's `isCommandEnabled` before its `doCommand`; that dispatch is host code and is modelled only as the lookup `HostLookup`. The copy controller's forward skips that question, so for `cmd_copy` the interception is not transparent when the real copy controller reports the command disabled (`Controllers.ForwardIgnoresEnabled`).
- The host's customize action, which can recreate the URL input with a new controller list, is host behaviour. `InsertCopyController` is the `customizationending` handler; the model does not simulate the rebuild itself.
- Bootstrap.BrowserWindow.InsertCopyController, Bootstrap.BrowserWindow.RemoveCopyController, Bootstrap.BrowserWindow.DoCommand, Bootstrap.BrowserWindow.Shutdown: in the source these throw a TypeError on a window without a URL input; the model requires one instead. Only sessions of windows that have a URL input are ever registered or installed.
- Bootstrap.BrowserWindow.AnimationEndListener: requires the share button to exist, because the listener only runs on the button it was attached to.
- Controllers.RemoveController: the host list's behaviour when the controller is absent is not part of this model. The model leaves the chain unchanged in that case. For this reason no idempotence of shutdown is claimed.
- The `urlInput` getter can be null in two ways: no URL bar, or a URL bar without an input child. Both are the single constant `hasUrlBar`.
- The identity of a copy controller is its window (`Copy(w)`). Two sessions created on the same window would share one identity in the model. Each session object also holds its own copy of the window's controller chain, share button and style-sheet and listener flags, whereas in the source two sessions on one window act on the same DOM; the model does not capture that sharing.
- `onEvent`, `onWindowTitleChange`, `onCloseWindow`, `install` and `uninstall` have empty bodies and are not modelled.
- bootstrap.js at the repository root is a superseded single-window version and is not part of this model. Its loops are malformed. test/ and manual_test.js are browser automation and are not part of this model either.
