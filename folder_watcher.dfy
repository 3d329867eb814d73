/**
 * `FolderMonitor`: watches a folder and its parent directory and turns file-system
 * notifications into `FileChangeEvent`s on one event stream.
 *
 * The operating system becomes method parameters: the descriptor `open` returns for the
 * parent, whether the target folder exists, whether opening it succeeds, and whether
 * listing it succeeds. Each notification the dispatch sources deliver is a method call.
 */
module FolderWatch {

  datatype FileChangeEvent =
    | FolderChanged
    | FolderDeleted
    | FolderRecreated
    | FileCreated(url: string)
    | FileModified(url: string)
    | FileDeleted(url: string)
  {
    /** The three folder-level cases, the only ones the monitor yields. */
    predicate IsFolderLevel() {
      FolderChanged? || FolderDeleted? || FolderRecreated?
    }
  }

  /** The events one change inside the target folder produces. `listings` has one entry
      per watch still iterating; an entry is `true` only when that watch fired and its
      listing of the folder succeeded, and each `true` yields one `folderChanged`. A
      watch left on a deleted folder holds the old folder's descriptor and never fires
      for a folder recreated at the same path, so its entry is `false`. */
  function ChangedEvents(listings: seq<bool>): (es: seq<FileChangeEvent>)
    ensures |es| <= |listings|
    ensures forall i :: 0 <= i < |es| ==> es[i] == FolderChanged
    ensures (forall i :: 0 <= i < |listings| ==> listings[i]) ==> |es| == |listings|
    ensures (forall i :: 0 <= i < |listings| ==> !listings[i]) ==> es == []
    ensures |es| == multiset(listings)[true]
  {
    if listings == [] then []
    else
      assert listings == [listings[0]] + listings[1..];
      (if listings[0] then [FolderChanged] else []) + ChangedEvents(listings[1..])
  }

  class FolderMonitor {
    const url: string
    /** `task`: never assigned, so always nil. */
    var hasTask: bool
    /** `parentMonitor` exists and has not been cancelled. */
    var parentMonitorArmed: bool
    var parentDescriptor: int
    /** Target-folder watches whose Task is still iterating `monitorFolder()`. */
    var targetMonitors: nat
    var started: bool
    /** The consumer stopped listening to the stream; later yields are dropped. */
    var terminated: bool
    /** Events the consumer received, in order. */
    var events: seq<FileChangeEvent>
    /** Descriptors passed to `close` by `cleanupMonitors`, in order. */
    var closedDescriptors: seq<int>

    predicate Valid()
      reads this
    {
      && (parentDescriptor == -1 || parentDescriptor >= 0)
      && (parentMonitorArmed ==> parentDescriptor >= 0 && started)
      && !hasTask
      && (terminated ==> started && !parentMonitorArmed && parentDescriptor == -1)
      && (!started ==> targetMonitors == 0 && events == [])
      && (forall i :: 0 <= i < |events| ==> events[i].IsFolderLevel())
      && (forall i :: 0 <= i < |closedDescriptors| ==> closedDescriptors[i] >= 0)
    }

    constructor (url: string)
      ensures Valid()
      ensures this.url == url && !started && !terminated && !parentMonitorArmed
      ensures parentDescriptor == -1 && targetMonitors == 0 && events == [] && closedDescriptors == []
    {
      this.url := url;
      hasTask := false;
      parentMonitorArmed := false;
      parentDescriptor := -1;
      targetMonitors := 0;
      started := false;
      terminated := false;
      events := [];
      closedDescriptors := [];
    }

    /** `startMonitoring()`: installs the parent watch, then the target watch. */
    method StartMonitoring(parentOpen: int, targetExists: bool, targetOpens: bool)
      requires Valid() && !started && parentOpen >= -1
      modifies this
      ensures Valid() && started && !terminated
      ensures parentDescriptor == parentOpen && (parentMonitorArmed <==> parentOpen != -1)
      ensures targetMonitors == (if targetExists && targetOpens then 1 else 0)
      ensures events == [] && closedDescriptors == old(closedDescriptors)
    {
      started := true;
      SetupParentMonitor(parentOpen);
      SetupFolderMonitor(targetExists, targetOpens);
    }

    /** `setupParentMonitor`: when `open` fails the descriptor stays -1 and no watch
        is installed. */
    method SetupParentMonitor(parentOpen: int)
      requires Valid() && started && !terminated && parentOpen >= -1
      modifies this
      ensures Valid()
      ensures parentDescriptor == parentOpen && (parentMonitorArmed <==> parentOpen != -1)
      ensures targetMonitors == old(targetMonitors) && events == old(events)
      ensures closedDescriptors == old(closedDescriptors) && started && !terminated
    {
      parentDescriptor := parentOpen;
      if parentDescriptor == -1 {
        parentMonitorArmed := false;
        return;
      }
      parentMonitorArmed := true;
    }

    /** `setupFolderMonitor` with `monitorFolder`: nothing when the folder does not exist;
        when it cannot be opened the inner stream finishes at once and its `Task` ends. */
    method SetupFolderMonitor(targetExists: bool, targetOpens: bool)
      requires Valid() && started
      modifies this
      ensures Valid()
      ensures targetMonitors == old(targetMonitors) + (if targetExists && targetOpens then 1 else 0)
      ensures parentDescriptor == old(parentDescriptor) && parentMonitorArmed == old(parentMonitorArmed)
      ensures events == old(events) && closedDescriptors == old(closedDescriptors)
      ensures started && terminated == old(terminated)
    {
      if !targetExists {
        return;
      }
      if targetOpens {
        targetMonitors := targetMonitors + 1;
      }
    }

    /** A notification on the parent directory: re-arms a target watch and yields
        `folderRecreated` when the target exists, yields `folderDeleted` otherwise. */
    method ParentEvent(targetExists: bool, targetOpens: bool)
      requires Valid() && parentMonitorArmed
      modifies this
      ensures Valid()
      ensures events == old(events) + (if terminated then [] else if targetExists then [FolderRecreated] else [FolderDeleted])
      ensures targetMonitors == old(targetMonitors) + (if targetExists && targetOpens then 1 else 0)
      ensures parentDescriptor == old(parentDescriptor) && parentMonitorArmed
      ensures closedDescriptors == old(closedDescriptors) && terminated == old(terminated)
    {
      if targetExists {
        SetupFolderMonitor(targetExists, targetOpens);
        Yield(FolderRecreated);
      } else {
        Yield(FolderDeleted);
      }
    }

    /** A change inside the target folder. `listings` has one entry per watch still
        iterating, `true` only when that watch fired and its listing succeeded; a watch
        left on a deleted folder never fires, so its entry is `false`. */
    method TargetChange(listings: seq<bool>)
      requires Valid() && |listings| == targetMonitors
      modifies this
      ensures Valid()
      ensures events == old(events) + (if terminated then [] else ChangedEvents(listings))
      ensures targetMonitors == old(targetMonitors) && parentDescriptor == old(parentDescriptor)
      ensures parentMonitorArmed == old(parentMonitorArmed) && closedDescriptors == old(closedDescriptors)
      ensures terminated == old(terminated) && started == old(started) && hasTask == old(hasTask)
    {
      if !terminated {
        events := events + ChangedEvents(listings);
      }
    }

    /** `continuation.yield`: delivered unless the consumer has stopped listening. */
    method Yield(e: FileChangeEvent)
      requires Valid() && started && e.IsFolderLevel()
      modifies this
      ensures Valid()
      ensures events == old(events) + (if terminated then [] else [e])
      ensures targetMonitors == old(targetMonitors) && parentDescriptor == old(parentDescriptor)
      ensures parentMonitorArmed == old(parentMonitorArmed) && closedDescriptors == old(closedDescriptors)
      ensures terminated == old(terminated) && started == old(started) && hasTask == old(hasTask)
    {
      if !terminated {
        events := events + [e];
      }
    }

    /** `onTermination` of the stream: the consumer is gone and the monitors are
        cleaned up. */
    method ConsumerTerminated()
      requires Valid() && started && !terminated
      modifies this
      ensures Valid() && terminated
      ensures !parentMonitorArmed && parentDescriptor == -1
      ensures closedDescriptors == old(closedDescriptors) + (if old(parentDescriptor) != -1 then [old(parentDescriptor)] else [])
      ensures targetMonitors == old(targetMonitors) && events == old(events)
    {
      CleanupMonitors();
      terminated := true;
    }

    /** `cleanupMonitors()`: cancels the parent watch and closes its descriptor once. */
    method CleanupMonitors()
      requires Valid()
      modifies this
      ensures Valid()
      ensures !parentMonitorArmed && parentDescriptor == -1
      ensures closedDescriptors == old(closedDescriptors) + (if old(parentDescriptor) != -1 then [old(parentDescriptor)] else [])
      ensures targetMonitors == old(targetMonitors) && events == old(events)
      ensures started == old(started) && terminated == old(terminated)
    {
      parentMonitorArmed := false;
      if parentDescriptor != -1 {
        closedDescriptors := closedDescriptors + [parentDescriptor];
        parentDescriptor := -1;
      }
    }

    /** `stopMonitoring()`: cancels the (absent) task and cleans up. The target watches
        and the stream stay alive. */
    method StopMonitoring()
      requires Valid()
      modifies this
      ensures Valid() && !hasTask
      ensures !parentMonitorArmed && parentDescriptor == -1
      ensures closedDescriptors == old(closedDescriptors) + (if old(parentDescriptor) != -1 then [old(parentDescriptor)] else [])
      ensures targetMonitors == old(targetMonitors) && events == old(events)
      ensures started == old(started) && terminated == old(terminated)
    {
      hasTask := false;
      CleanupMonitors();
    }
  }

  /** After `stopMonitoring` the consumer still receives `folderChanged`: stopping
      neither ends the stream nor the target watch. */
  method StopKeepsTargetWatch() returns (events: seq<FileChangeEvent>, armed: bool)
    ensures events == [FolderChanged] && !armed
  {
    var m := new FolderMonitor("/data/results");
    m.StartMonitoring(3, true, true);
    m.StopMonitoring();
    m.TargetChange([true]);
    events := m.events;
    armed := m.parentMonitorArmed;
  }

  /** Every parent notification while the folder exists adds another target watch, so
      one later change is reported once per watch. */
  method ParentEventsMultiplyChanges() returns (events: seq<FileChangeEvent>, monitors: nat)
    ensures monitors == 3
    ensures events == [FolderRecreated, FolderRecreated, FolderChanged, FolderChanged, FolderChanged]
  {
    var m := new FolderMonitor("/data/results");
    m.StartMonitoring(3, true, true);
    m.ParentEvent(true, true);
    m.ParentEvent(true, true);
    m.TargetChange([true, true, true]);
    events := m.events;
    monitors := m.targetMonitors;
  }

  /** Stopping twice and then losing the consumer closes the parent descriptor once. */
  method CleanupClosesOnce() returns (closed: seq<int>, descriptor: int)
    ensures closed == [5] && descriptor == -1
  {
    var m := new FolderMonitor("/data/results");
    m.StartMonitoring(5, false, false);
    m.StopMonitoring();
    m.StopMonitoring();
    m.ConsumerTerminated();
    closed := m.closedDescriptors;
    descriptor := m.parentDescriptor;
  }

  /** When neither the parent nor the target can be watched nothing is installed and
      nothing is ever reported. */
  method NothingToWatch() returns (descriptor: int, armed: bool, monitors: nat, events: seq<FileChangeEvent>)
    ensures descriptor == -1 && !armed && monitors == 0 && events == []
  {
    var m := new FolderMonitor("/data/results");
    m.StartMonitoring(-1, true, false);
    descriptor := m.parentDescriptor;
    armed := m.parentMonitorArmed;
    monitors := m.targetMonitors;
    events := m.events;
  }

  /** After the consumer stops listening, notifications still run but yield nothing. */
  method SilentAfterTermination() returns (events: seq<FileChangeEvent>, monitors: nat)
    ensures events == [FolderDeleted] && monitors == 1
  {
    var m := new FolderMonitor("/data/results");
    m.StartMonitoring(4, true, true);
    m.ParentEvent(false, false);
    m.ConsumerTerminated();
    m.TargetChange([true]);
    events := m.events;
    monitors := m.targetMonitors;
  }
}
