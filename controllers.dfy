/**
 * The command-controller chain of a URL input element and the part of
 * CopyController (extension/bootstrap.js) that does not touch the window:
 * which commands it claims and where it delegates a command to.
 *
 * The host consults the controllers of an element in order; index 0 is asked
 * first.  The add-on puts its CopyController at index 0 and, after handling a
 * command, forwards it to the next controller that supports it.
 */
module Controllers {
  import opened Wrappers

  /** The command the copy controller intercepts. */
  const CopyCommand: string := "cmd_copy"

  /** The private command id the copy controller also claims, so that it can find itself in a chain. */
  const Sentinel: string := "share-button-study"

  /** The commands a CopyController answers `supportsCommand` with true. */
  const CopyCommands: set<string> := {CopyCommand, Sentinel}

  /** Identity of a browser window. */
  type WindowId = nat

  /**
   * One entry of a controller chain.  Equality is object identity:
   * `Copy(w)` is the single CopyController owned by the session of window `w`;
   * `Host` is a controller of the host, known only by what it answers.
   */
  datatype Controller =
    | Copy(owner: WindowId)
    | Host(id: nat, commands: set<string>, enabled: set<string>)

  /** `supportsCommand(cmd)` of a controller. */
  function Supports(c: Controller, cmd: string): (r: bool)
    ensures c.Copy? ==> (r <==> cmd in CopyCommands)
    ensures c.Host? ==> (r <==> cmd in c.commands)
  {
    match c
    case Copy(_) => cmd == CopyCommand || cmd == Sentinel
    case Host(_, commands, _) => cmd in commands
  }

  /** `isCommandEnabled(cmd)` of a controller: the copy controller never disables anything. */
  function IsCommandEnabled(c: Controller, cmd: string): (r: bool)
    ensures c.Copy? ==> r
    ensures c.Host? ==> (r <==> cmd in c.enabled)
  {
    match c
    case Copy(_) => true
    case Host(_, _, enabled) => cmd in enabled
  }

  /** Index of the first controller that claims the sentinel, or `|chain|` when none does. */
  function FirstSentinel(chain: seq<Controller>): (i: nat)
    ensures i <= |chain|
    ensures i < |chain| ==> Supports(chain[i], Sentinel)
    ensures forall j :: 0 <= j < i ==> !Supports(chain[j], Sentinel)
  {
    if chain == [] then 0
    else if Supports(chain[0], Sentinel) then 0
    else 1 + FirstSentinel(chain[1..])
  }

  /** Where the second scan of doCommand begins: one past the first sentinel, or the end of the chain. */
  function ScanStart(chain: seq<Controller>): nat
  {
    var i := FirstSentinel(chain);
    if i < |chain| then i + 1 else |chain|
  }

  /** Index of the first controller at or after `from` that supports `cmd`, if any. */
  function FirstSupporting(chain: seq<Controller>, from: nat, cmd: string): (r: Option<nat>)
    requires from <= |chain|
    ensures r.Some? ==> from <= r.value < |chain| && Supports(chain[r.value], cmd)
    ensures forall j :: from <= j < |chain| && (r.None? || j < r.value) ==> !Supports(chain[j], cmd)
    decreases |chain| - from
  {
    if from == |chain| then None
    else if Supports(chain[from], cmd) then Some(from)
    else FirstSupporting(chain, from + 1, cmd)
  }

  /**
   * The controller a CopyController's doCommand(cmd) forwards to: the first one,
   * strictly after the first controller that claims the sentinel, that supports
   * `cmd`.  Nothing is forwarded when no controller claims the sentinel or none
   * after it supports `cmd`.
   */
  function DelegateTarget(chain: seq<Controller>, cmd: string): (r: Option<nat>)
    ensures r.Some? ==>
      && FirstSentinel(chain) < r.value < |chain|
      && Supports(chain[r.value], cmd)
      && forall j :: FirstSentinel(chain) < j < r.value ==> !Supports(chain[j], cmd)
    ensures r.None? ==> forall j :: FirstSentinel(chain) < j < |chain| ==> !Supports(chain[j], cmd)
    ensures (forall j :: 0 <= j < |chain| ==> !Supports(chain[j], Sentinel)) ==> r.None?
  {
    FirstSupporting(chain, ScanStart(chain), cmd)
  }

  /**
   * The two linear scans of CopyController.doCommand.  The result is the index
   * of the one controller whose doCommand is called, or None when none is.
   */
  method FindDelegate(chain: seq<Controller>, cmd: string) returns (target: Option<nat>)
    ensures target == DelegateTarget(chain, cmd)
  {
    // Skip until we reach the controller that claims the sentinel, and step past it.
    var i := 0;
    while i < |chain|
      invariant 0 <= i <= |chain|
      invariant forall j :: 0 <= j < i ==> !Supports(chain[j], Sentinel)
    {
      if Supports(chain[i], Sentinel) {
        i := i + 1;
        break;
      }
      i := i + 1;
    }
    // Forward to the first later controller that supports the command.
    target := None;
    while i < |chain|
      invariant ScanStart(chain) <= i <= |chain|
      invariant forall j :: ScanStart(chain) <= j < i ==> !Supports(chain[j], cmd)
    {
      if Supports(chain[i], cmd) {
        target := Some(i);
        break;
      }
      i := i + 1;
    }
  }

  /**
   * The host's own dispatch with no interceptor in place: the first controller
   * of the chain that supports the command.
   */
  function HostLookup(chain: seq<Controller>, cmd: string): Option<nat>
  {
    FirstSupporting(chain, 0, cmd)
  }

  /** An index one further along the chain, as seen after one controller has been put in front. */
  function Shifted(r: Option<nat>): Option<nat>
  {
    match r
    case None => None
    case Some(i) => Some(i + 1)
  }

  /** Position of the first entry identical to `c`. */
  function IndexOf(chain: seq<Controller>, c: Controller): (k: nat)
    requires c in chain
    ensures k < |chain| && chain[k] == c && c !in chain[..k]
  {
    if chain[0] == c then 0
    else
      assert chain == [chain[0]] + chain[1..];
      var k := 1 + IndexOf(chain[1..], c);
      assert chain[..k] == [chain[0]] + chain[1..][..k - 1];
      k
  }

  /**
   * `removeController(c)` of the host list: the first entry identical to `c` is
   * dropped and the others keep their order; a chain without `c` is left as it is.
   */
  function RemoveController(chain: seq<Controller>, c: Controller): (r: seq<Controller>)
    ensures c !in chain ==> r == chain
    ensures c in chain ==> r == chain[..IndexOf(chain, c)] + chain[IndexOf(chain, c) + 1..]
  {
    if chain == [] then []
    else if chain[0] == c then chain[1..]
    else
      assert chain == [chain[0]] + chain[1..];
      var rest := RemoveController(chain[1..], c);
      assert c in chain ==> (
        var k := IndexOf(chain[1..], c);
        && IndexOf(chain, c) == k + 1
        && chain[..k + 1] == [chain[0]] + chain[1..][..k]
        && chain[k + 2..] == chain[1..][k + 1..]);
      [chain[0]] + rest
  }

  /** Scanning a chain with one more controller in front finds the same controller, one index later. */
  lemma {:induction false} FirstSupportingBehind(c: Controller, chain: seq<Controller>, from: nat, cmd: string)
    requires from <= |chain|
    ensures FirstSupporting([c] + chain, from + 1, cmd) == Shifted(FirstSupporting(chain, from, cmd))
    decreases |chain| - from
  {
    var longer := [c] + chain;
    if from < |chain| {
      assert longer[from + 1] == chain[from];
      if !Supports(chain[from], cmd) {
        FirstSupportingBehind(c, chain, from + 1, cmd);
      }
    }
  }

  /**
   * Once the copy controller is inserted at index 0 of a chain that held no
   * copy controller, every command it handles is forwarded to exactly the
   * controller the host's lookup would pick without it, and that controller
   * is a host controller (so the forwarding ends there).
   */
  lemma {:induction false} InsertedCopyForwardsLikeHost(chain: seq<Controller>, w: WindowId, cmd: string)
    requires forall j :: 0 <= j < |chain| ==> !Supports(chain[j], Sentinel)
    ensures DelegateTarget([Copy(w)] + chain, cmd) == Shifted(HostLookup(chain, cmd))
    ensures DelegateTarget([Copy(w)] + chain, cmd).Some? ==>
      ([Copy(w)] + chain)[DelegateTarget([Copy(w)] + chain, cmd).value].Host?
  {
    var longer := [Copy(w)] + chain;
    assert FirstSentinel(longer) == 0;
    FirstSupportingBehind(Copy(w), chain, 0, cmd);
    var r := DelegateTarget(longer, cmd);
    if r.Some? {
      assert longer[r.value] == chain[r.value - 1];
    }
  }

  /**
   * For a command other than the copy command and the sentinel, the host's own
   * lookup passes over the inserted copy controller and picks the controller it
   * picked before.
   */
  lemma HostLookupSkipsCopy(chain: seq<Controller>, w: WindowId, cmd: string)
    requires cmd !in CopyCommands
    ensures HostLookup([Copy(w)] + chain, cmd) == Shifted(HostLookup(chain, cmd))
  {
    FirstSupportingBehind(Copy(w), chain, 0, cmd);
  }

  /**
   * The forward is not fully transparent for cmd_copy: the host's lookup now
   * stops at the copy controller, which always answers enabled, and the
   * copy controller calls doCommand on its target without asking that target's
   * isCommandEnabled.  So a copy is forwarded to a controller that reports
   * cmd_copy as disabled.
   */
  lemma ForwardIgnoresEnabled(w: WindowId)
    ensures var host := Host(0, {CopyCommand}, {});
      && HostLookup([Copy(w), host], CopyCommand) == Some(0)
      && IsCommandEnabled(Copy(w), CopyCommand)
      && DelegateTarget([Copy(w), host], CopyCommand) == Some(1)
      && !IsCommandEnabled(host, CopyCommand)
  {
    assert FirstSentinel([Copy(w), Host(0, {CopyCommand}, {})]) == 0;
  }

  /** Inserting the copy controller at index 0 and then removing it by identity restores the chain. */
  lemma RemoveAfterInsert(chain: seq<Controller>, c: Controller)
    ensures RemoveController([c] + chain, c) == chain
  {
    assert ([c] + chain)[1..] == chain;
  }

  /**
   * With the same copy controller inserted twice, cmd_copy is forwarded from the
   * first to the second one, whose own scan starts again after the first and
   * selects itself: the forwarding never reaches the rest of the chain.
   */
  lemma DoubleInsertionSelfTargets(chain: seq<Controller>, w: WindowId)
    ensures DelegateTarget([Copy(w), Copy(w)] + chain, CopyCommand) == Some(1)
    ensures ([Copy(w), Copy(w)] + chain)[1] == Copy(w)
  {
    assert FirstSentinel([Copy(w), Copy(w)] + chain) == 0;
  }
}
