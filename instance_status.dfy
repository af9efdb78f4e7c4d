/**
 * The status label dictionaries of src/resources/instance.jsx and the
 * dictionary `instanceStatus` that spreads the four of them into one object.
 * Labels are the English message ids; the translation function is the identity
 * here.
 */
module InstanceStatus {

  /** Labels of the transient server states. */
  const TransitionStatus: map<string, string> := map[
    "build" := "Build",
    "building" := "Building",
    "stopped" := "Stopped",
    "recovering" := "Recovering",
    "rescued" := "Rescued",
    "resized" := "Resized",
    "scheduling" := "Scheduling",
    "reboot" := "Reboot",
    "hard_reboot" := "Hard Reboot",
    "migrating" := "Migrating"
  ]

  /** Labels of the settled server states. */
  const StableStatus: map<string, string> := map[
    "deleted" := "Deleted",
    "active" := "Active",
    "shutoff" := "Shutoff",
    "paused" := "Paused",
    "error" := "Error",
    "resize" := "Resizing or Migrating",
    "verify_resize" := "Resizing or Migrating",
    "revert_resize" := "Revert Resize/Migrate",
    "password" := "Password",
    "rebuild" := "Rebuild",
    "rescue" := "Rescue",
    "soft-delete" := "Soft Deleted",
    "soft_deleted" := "Soft Deleted",
    "shelved" := "Shelved",
    "shelved_offloaded" := "Shelved Offloaded",
    "suspended" := "Suspended",
    "stopped" := "Shutoff"
  ]

  /** Labels of the task states; the key "null" is how an object literal spells `null`. */
  const TaskStatus: map<string, string> := map[
    "null" := "No Task",
    "scheduling" := "Scheduling",
    "block_device_mapping" := "Block Device Mapping",
    "networking" := "Networking",
    "spawning" := "Spawning",
    "image_snapshot" := "Snapshotting",
    "image_snapshot_pending" := "Image Snapshot Pending",
    "image_pending_upload" := "Image Pending Upload",
    "image_uploading" := "Image Uploading",
    "image_backup" := "Image Backup",
    "updating_password" := "Updating Password",
    "resize_prep" := "Resizing or Migrating",
    "resize_migrating" := "Resizing or Migrating",
    "resize_migrated" := "Resizing or Migrating",
    "resize_finish" := "Resizing or Migrating",
    "resize_reverting" := "Reverting Resize or Migrate",
    "resize_confirming" := "Confirming Resize or Migrate",
    "rebooting" := "Rebooting",
    "reboot_pending" := "Rebooting",
    "reboot_started" := "Rebooting",
    "rebooting_hard" := "Hard Rebooting",
    "reboot_pending_hard" := "Hard Rebooting",
    "reboot_started_hard" := "Hard Rebooting",
    "pausing" := "Pausing",
    "unpausing" := "Resuming",
    "suspending" := "Suspending",
    "resuming" := "Resuming",
    "powering-off" := "Powering Off",
    "powering-on" := "Powering On",
    "rescuing" := "Rescuing",
    "unrescuing" := "Unrescuing",
    "rebuilding" := "Rebuilding",
    "rebuild_block_device_mapping" := "Rebuild Block Device Mapping",
    "rebuild_spawning" := "Rebuild Spawning",
    "migrating" := "Migrating",
    "deleting" := "Deleting",
    "soft-deleting" := "Soft Deleting",
    "restoring" := "Restoring",
    "shelving" := "Shelving",
    "shelving_image_pending_upload" := "Shelving Image Pending Upload",
    "shelving_image_uploading" := "Shelving Image Uploading",
    "shelving_offloading" := "Shelving Offloading",
    "unshelving" := "Unshelving"
  ]

  /** Labels of the hypervisor power states, keyed in upper case. */
  const PowerStatus: map<string, string> := map[
    "NO STATE" := "No State",
    "RUNNING" := "Running",
    "BLOCKED" := "Blocked",
    "PAUSED" := "Paused",
    "SHUTDOWN" := "Shut Down",
    "SHUTOFF" := "Shut Off",
    "CRASHED" := "Crashed",
    "SUSPENDED" := "Suspended",
    "FAILED" := "Failed",
    "BUILDING" := "Building"
  ]

  /** `k` is in none of the layers after index `i`. */
  predicate LastWith(layers: seq<map<string, string>>, k: string, i: int)
    requires 0 <= i < |layers|
  {
    k in layers[i] && forall j :: i < j < |layers| ==> k !in layers[j]
  }

  /**
   * `{ ...layers[0], ...layers[1], ... }`: the keys of every layer, each with
   * the value of the last layer that has it.
   */
  function SpreadAll(layers: seq<map<string, string>>): (r: map<string, string>)
    ensures forall k :: k in r <==> exists i :: 0 <= i < |layers| && k in layers[i]
    ensures forall k, i :: 0 <= i < |layers| && LastWith(layers, k, i) ==> k in r && r[k] == layers[i][k]
  {
    if layers == [] then map[]
    else
      var front := layers[..|layers| - 1];
      var last := layers[|layers| - 1];
      SpreadStep(front, last, SpreadAll(front));
      assert front + [last] == layers;
      SpreadAll(front) + last
  }

  /** Spreading one more layer over a merge keeps the merge's two properties. */
  lemma SpreadStep(front: seq<map<string, string>>, last: map<string, string>, rest: map<string, string>)
    requires forall k :: k in rest <==> exists i :: 0 <= i < |front| && k in front[i]
    requires forall k, i :: 0 <= i < |front| && LastWith(front, k, i) ==> k in rest && rest[k] == front[i][k]
    ensures var layers := front + [last];
      forall k :: k in rest + last <==> exists i :: 0 <= i < |layers| && k in layers[i]
    ensures var layers := front + [last];
      forall k, i :: 0 <= i < |layers| && LastWith(layers, k, i) ==> k in rest + last && (rest + last)[k] == layers[i][k]
  {
    var layers := front + [last];
    var n := |front|;
    forall k ensures k in rest + last <==> exists i :: 0 <= i < |layers| && k in layers[i] {
      if k in last {
        assert k in layers[n];
      } else if k in rest {
        var i :| 0 <= i < n && k in front[i];
        assert k in layers[i];
      }
      if exists i :: 0 <= i < |layers| && k in layers[i] {
        var i :| 0 <= i < |layers| && k in layers[i];
        if i < n {
          assert k in front[i];
        }
      }
    }
    forall k, i | 0 <= i < |layers| && LastWith(layers, k, i)
      ensures k in rest + last && (rest + last)[k] == layers[i][k]
    {
      if i < n {
        assert k !in layers[n];
        assert LastWith(front, k, i) by {
          forall j | i < j < n ensures k !in front[j] {
            assert k !in layers[j];
          }
        }
      }
    }
  }

  /** The four dictionaries in the order of their spread. */
  function Layers(): (r: seq<map<string, string>>)
    ensures |r| == 4
  {
    [TransitionStatus, StableStatus, TaskStatus, PowerStatus]
  }

  /** The merged dictionary of src/resources/instance.jsx, later layers winning. */
  const InstanceStatus: map<string, string> := SpreadAll(Layers())

  /** Spreading four objects yields exactly their keys. */
  lemma SpreadFourKeys(a: map<string, string>, b: map<string, string>, c: map<string, string>, d: map<string, string>)
    ensures SpreadAll([a, b, c, d]).Keys == a.Keys + b.Keys + c.Keys + d.Keys
  {
    var ls := [a, b, c, d];
    var r := SpreadAll(ls);
    forall k ensures k in r <==> k in a || k in b || k in c || k in d {
      if k in r {
        var i :| 0 <= i < 4 && k in ls[i];
      }
      if k in a { assert k in ls[0]; }
      if k in b { assert k in ls[1]; }
      if k in c { assert k in ls[2]; }
      if k in d { assert k in ls[3]; }
    }
  }

  /** The merged dictionary has exactly the keys of the four dictionaries. */
  lemma InstanceStatusKeys()
    ensures InstanceStatus.Keys == TransitionStatus.Keys + StableStatus.Keys + TaskStatus.Keys + PowerStatus.Keys
  {
    SpreadFourKeys(TransitionStatus, StableStatus, TaskStatus, PowerStatus);
  }

  /** Every power-state label survives the merge: that dictionary is spread last. */
  lemma PowerStatusKept(k: string)
    requires k in PowerStatus
    ensures k in InstanceStatus && InstanceStatus[k] == PowerStatus[k]
  {
    assert LastWith(Layers(), k, 3);
  }

  /**
   * The length of a key and its fourth character from the end. No two of the
   * dictionaries share a signature, except on the keys `stopped`,
   * `scheduling` and `migrating`.
   */
  function Signature(k: string): (int, char)
    requires |k| >= 4
  {
    (|k|, k[|k| - 4])
  }

  /** The signature of every transient-state key not shared with a later dictionary. */
  lemma TransitionSignature(k: string)
    requires k in TransitionStatus && k != "stopped" && k != "scheduling" && k != "migrating"
    ensures |k| >= 4 && Signature(k) in {
        (5, 'u'), (6, 'b'), (7, 'c'), (7, 'i'), (8, 'd'), (10, 'r'), (11, 'b')
      }
  {
  }

  /** The signature of every settled-state key. */
  lemma StableSignature(k: string)
    requires k in StableStatus
    ensures |k| >= 4 && Signature(k) in {
        (5, 'r'), (6, 's'), (6, 't'), (6, 'u'), (7, 'e'), (7, 'l'), (7, 'p'), (7, 't'),
        (7, 'u'), (8, 'w'), (9, 'n'), (11, 'l'), (12, 'e'), (13, 's'), (17, 'a')
      }
  {
  }

  /** The signature of every task-state key. */
  lemma TaskSignature(k: string)
    requires k in TaskStatus
    ensures |k| >= 4 && Signature(k) in {
        (4, 'n'), (7, 's'), (8, 'm'), (8, 'n'), (8, 't'), (8, 'u'), (8, 'v'), (9, 'r'),
        (9, 's'), (9, 't'), (10, 'd'), (10, 'k'), (10, 'l'), (10, 'u'), (10, 'v'),
        (11, 'g'), (11, 'p'), (12, '-'), (12, 'c'), (13, 'n'), (13, 't'), (14, 'd'),
        (14, 'h'), (14, 'r'), (14, 's'), (15, 'a'), (15, 'd'), (16, 'n'), (16, 't'),
        (17, 'm'), (17, 'w'), (19, 'd'), (19, 'h'), (20, 'l'), (20, 'p'), (22, 'd'),
        (24, 'd'), (28, 'p'), (29, 'l')
      }
  {
    if |k| < 10 {
      TaskSignatureShort(k);
    } else if |k| < 15 {
      TaskSignatureMiddle(k);
    } else {
      TaskSignatureLong(k);
    }
  }

  lemma TaskSignatureShort(k: string)
    requires k in TaskStatus && |k| < 10
    ensures |k| >= 4 && Signature(k) in {
        (4, 'n'), (7, 's'), (8, 'm'), (8, 'n'), (8, 't'), (8, 'u'), (8, 'v'), (9, 'r'),
        (9, 's'), (9, 't')
      }
  {
  }

  lemma TaskSignatureMiddle(k: string)
    requires k in TaskStatus && 10 <= |k| < 15
    ensures Signature(k) in {
        (10, 'd'), (10, 'k'), (10, 'l'), (10, 'u'), (10, 'v'), (11, 'g'), (11, 'p'),
        (12, '-'), (12, 'c'), (13, 'n'), (13, 't'), (14, 'd'), (14, 'h'), (14, 'r'),
        (14, 's')
      }
  {
  }

  lemma TaskSignatureLong(k: string)
    requires k in TaskStatus && 15 <= |k|
    ensures Signature(k) in {
        (15, 'a'), (15, 'd'), (16, 'n'), (16, 't'), (17, 'm'), (17, 'w'), (19, 'd'),
        (19, 'h'), (20, 'l'), (20, 'p'), (22, 'd'), (24, 'd'), (28, 'p'), (29, 'l')
      }
  {
  }

  /** The signature of every power-state key: its characters are upper case. */
  lemma PowerSignature(k: string)
    requires k in PowerStatus
    ensures |k| >= 4 && Signature(k) in {
        (6, 'I'), (6, 'U'), (7, 'C'), (7, 'N'), (7, 'S'), (7, 'T'), (8, 'D'), (8, 'T'),
        (9, 'N')
      }
  {
  }

  /** No task-state key is a power-state key. */
  lemma TaskNotPower(k: string)
    requires k in TaskStatus
    ensures k !in PowerStatus
  {
    TaskSignature(k);
    if k in PowerStatus {
      PowerSignature(k);
    }
  }

  /** Every task-state label survives the merge: no power state shares its key. */
  lemma TaskStatusKept(k: string)
    requires k in TaskStatus
    ensures k in InstanceStatus && InstanceStatus[k] == TaskStatus[k]
  {
    TaskNotPower(k);
    assert LastWith(Layers(), k, 2);
  }

  /** No settled-state key is a task-state key. */
  lemma StableNotTask(k: string)
    requires k in StableStatus
    ensures k !in TaskStatus
  {
    StableSignature(k);
    if k in TaskStatus {
      TaskSignature(k);
    }
  }

  /** No settled-state key is a power-state key. */
  lemma StableNotPower(k: string)
    requires k in StableStatus
    ensures k !in PowerStatus
  {
    StableSignature(k);
    if k in PowerStatus {
      PowerSignature(k);
    }
  }

  /** Every settled-state label survives the merge: no task or power state shares its key. */
  lemma StableStatusKept(k: string)
    requires k in StableStatus
    ensures k in InstanceStatus && InstanceStatus[k] == StableStatus[k]
  {
    StableNotTask(k);
    StableNotPower(k);
    assert LastWith(Layers(), k, 1);
  }

  /** The two keys that are transient and task states carry the same label in both. */
  lemma SharedWithTask(k: string)
    requires k == "scheduling" || k == "migrating"
    ensures k in TransitionStatus && k in TaskStatus && TaskStatus[k] == TransitionStatus[k]
  {
  }

  /** Apart from three, the transient-state keys are in no later dictionary. */
  lemma TransitionOnly(k: string)
    requires k in TransitionStatus && k != "stopped" && k != "scheduling" && k != "migrating"
    ensures k !in StableStatus && k !in TaskStatus && k !in PowerStatus
  {
    TransitionSignature(k);
    if k in StableStatus {
      StableSignature(k);
    }
    if k in TaskStatus {
      TaskSignature(k);
    }
    if k in PowerStatus {
      PowerSignature(k);
    }
  }

  /**
   * Every transient-state label but that of `stopped` survives the merge:
   * `scheduling` and `migrating` are task states too, with the same label.
   */
  lemma TransitionStatusKept(k: string)
    requires k in TransitionStatus && k != "stopped"
    ensures k in InstanceStatus && InstanceStatus[k] == TransitionStatus[k]
  {
    if k == "scheduling" || k == "migrating" {
      SharedWithTask(k);
      TaskStatusKept(k);
    } else {
      TransitionOnly(k);
      assert LastWith(Layers(), k, 0);
    }
  }

  /** The settled-state label of `stopped` replaces its transient label. */
  lemma StoppedIsShutoff()
    ensures TransitionStatus["stopped"] == "Stopped"
    ensures "stopped" in InstanceStatus && InstanceStatus["stopped"] == "Shutoff"
  {
    StoppedNotATask();
    StoppedNotAPowerState();
    assert LastWith(Layers(), "stopped", 1);
  }

  lemma StoppedNotATask()
    ensures "stopped" !in TaskStatus
  {
  }

  lemma StoppedNotAPowerState()
    ensures "stopped" !in PowerStatus
  {
  }
}
