# Instance helpers of skyline-console, in Dafny

skyline-console is the web console of an OpenStack cloud. Its file
`src/resources/instance.jsx` holds the pure helpers that the server (instance)
pages share. This project models them and proves what they promise:

- **getUserData** composes the cloud-init user data sent when a server is
  created. It is a MIME multipart/mixed document with a fixed boundary. Which
  parts it contains depends on the truthiness of the password and of the
  user's script:
  - both given: a cloud-config part that enables password login, a shell
    part that sets the root password with `chpasswd`, and a shell part with
    the script;
  - only a password: the first two parts;
  - otherwise: the script part alone.

  The three templates are kept verbatim, one line per list entry, with the
  boundary written as a literal of its own on each line that carries it
  (`UserData`).
  They are proved equal to documents built from one structure. The proof
  also shows that a global replacement of a sentinel (`USER_PASSWORD`,
  `USER_DATA`) rewrites only the part bodies, never the headers or the
  delimiters.
- **Status checks**: `checkStatus` and the predicates built on it, plus the
  lock, task-state, ISO, root-volume, bare-metal and live-resize checks,
  and the reader of a subnet's first pool address (`InstanceChecks`).
- **The status label dictionary** `instanceStatus`, an object spread of four
  dictionaries in which the later one wins a key (`InstanceStatus`). Every
  label of the four survives the spread except the transient label of
  `stopped`, which the settled-state label replaces.

The JavaScript built-ins these helpers rely on are in module `Js`:
- truthiness of an optional string;
- ASCII `toLowerCase`;
- `replace` with a global regular expression that matches one literal word.

A property that may be `undefined` is an `Option`. An evaluation that throws
a `TypeError` is a `Result`. The translation function `t` is the identity.

With no truthy password and an undefined script, `replace` turns the
`undefined` replacement into the text `undefined`, so the script part holds
that text (`UserData.GetUserData`, third case, with `Js.ToText`).

## Model

| member | source | states |
|---|---|---|
| `Js.Truthy` | src/resources/instance.jsx:262-266 | an optional string is truthy exactly when it is present and not empty |
| `Js.ToText` | src/resources/instance.jsx:269 | a present string is written as itself, an undefined one as the text undefined |
| `Js.ToLowerCase` | src/resources/instance.jsx:150-151 | lower-casing keeps the length and lower-cases each character on its own |
| `Js.ToLowerCaseIdempotent` | src/resources/instance.jsx:150-151 | lower-casing an already lower-cased string changes nothing |
| `Js.ReplaceAll` | src/resources/instance.jsx:263-269 | a global literal replace leaves a text without the pattern's first character unchanged |
| `Js.ReplaceAllCharacters` | src/resources/instance.jsx:263-269 | every character of the result comes from the text or from the replacement |
| `Js.ReplaceAllConcat` | src/resources/instance.jsx:263-269 | a global literal replace distributes over a concatenation when no occurrence can straddle the seam |
| `UserData.PasswordAndUserDataShape` | src/resources/instance.jsx:187-219 | the two-secret template is a document of a cloud-config part, a chpasswd part and a script part, with the sentinels in their holes and no space after the header |
| `UserData.OnlyPasswordShape` | src/resources/instance.jsx:221-245 | the password template is the document of the cloud-config and chpasswd parts, with a space after the header |
| `UserData.OnlyUserDataShape` | src/resources/instance.jsx:247-259 | the script template is the document of the script part alone |
| `UserData.ReplaceAllDocument` | src/resources/instance.jsx:263-269 | replacing a sentinel in a document rewrites the part bodies and leaves the header, part headers and delimiters alone |
| `UserData.ReplaceInCloudConfig` | src/resources/instance.jsx:197-200 | in the cloud-config body only the password hole is rewritten |
| `UserData.ReplaceInPasswdScript` | src/resources/instance.jsx:208-209 | in the chpasswd body only the password hole is rewritten |
| `UserData.ReplaceInUserScript` | src/resources/instance.jsx:217 | in the script body the hole is the whole line before its break |
| `UserData.FillBoth` | src/resources/instance.jsx:262-265 | substituting the password, then the script, yields the three-part document; the script also replaces any data sentinel inside the password |
| `UserData.FillPasswordOnly` | src/resources/instance.jsx:266-267 | substituting the password yields the two-part document carrying it in both password lines |
| `UserData.FillUserDataOnly` | src/resources/instance.jsx:269 | substituting the script yields the one-part document carrying it |
| `UserData.GetUserData` | src/resources/instance.jsx:261-270 | the result for each of the three truthiness cases, as a document of parts; an undefined script is written as "undefined" |
| `UserData.DocumentStartsWithHeader` | src/resources/instance.jsx:188 | every document starts with the multipart Content-Type header naming the boundary |
| `UserData.DocumentEndsWithTrailer` | src/resources/instance.jsx:218-219 | every document with a part ends with a blank line and the closing delimiter |
| `UserData.GetUserDataFraming` | src/resources/instance.jsx:187-270 | whatever the inputs, the user data starts with the multipart header and ends with a blank line and the closing delimiter |
| `UserData.PasswordKeptVerbatim` | src/resources/instance.jsx:262-265 | with both inputs, a password without the data sentinel appears unchanged in both password lines |
| `UserData.PasswordSpellingDataSentinel` | src/resources/instance.jsx:262-265 | with both inputs, a password made of a prefix and the data sentinel has the script spliced in after the prefix in both password lines, when the prefix holds no sentinel, no `$`, and does not end in one of the sentinel's characters |
| `UserData.SecretPasswordSpellingDataSentinel` | src/resources/instance.jsx:262-265 | with both inputs, the password Secret1USER_DATA reaches both password lines as Secret1 followed by the script |
| `InstanceStatus.SpreadAll` | src/resources/instance.jsx:125-130 | an object spread has the keys of all its layers, each with the value of the last layer holding it |
| `InstanceStatus.SpreadStep` | src/resources/instance.jsx:125-130 | spreading one more layer over a merge keeps both properties of the merge |
| `InstanceStatus.SpreadFourKeys` | src/resources/instance.jsx:125-130 | spreading four objects yields exactly the union of their keys |
| `InstanceStatus.InstanceStatusKeys` | src/resources/instance.jsx:125-130 | the merged label dictionary has exactly the keys of the transition, stable, task and power dictionaries |
| `InstanceStatus.PowerStatusKept` | src/resources/instance.jsx:112-130 | every power-state label survives the merge unchanged |
| `InstanceStatus.TaskNotPower` | src/resources/instance.jsx:66-123 | no task-state key is a power-state key |
| `InstanceStatus.TaskStatusKept` | src/resources/instance.jsx:66-130 | every task-state label survives the merge unchanged |
| `InstanceStatus.StableNotTask` | src/resources/instance.jsx:44-110 | no settled-state key is a task-state key |
| `InstanceStatus.StableNotPower` | src/resources/instance.jsx:44-64 | no settled-state key is a power-state key |
| `InstanceStatus.StableStatusKept` | src/resources/instance.jsx:44-130 | every settled-state label survives the merge unchanged |
| `InstanceStatus.SharedWithTask` | src/resources/instance.jsx:31-110 | scheduling and migrating are transient and task states with the same label in both |
| `InstanceStatus.TransitionOnly` | src/resources/instance.jsx:31-123 | every transient-state key except stopped, scheduling and migrating is in no later dictionary |
| `InstanceStatus.TransitionStatusKept` | src/resources/instance.jsx:31-130 | every transient-state label but that of stopped survives the merge unchanged |
| `InstanceStatus.StoppedIsShutoff` | src/resources/instance.jsx:31-130 | `stopped` is labelled Stopped as a transition but Shutoff in the merge, because the stable dictionary comes later |
| `InstanceChecks.CheckStatus` | src/resources/instance.jsx:147-153 | true exactly when the list (empty if undefined) holds the lower-cased status, or a set vm state lower-cased |
| `InstanceChecks.CheckStatusUndefinedList` | src/resources/instance.jsx:147 | an undefined list matches nothing |
| `InstanceChecks.CheckStatusAppend` | src/resources/instance.jsx:147-153 | checking against two lists joined is checking against either |
| `InstanceChecks.CheckStatusIgnoresCase` | src/resources/instance.jsx:147-153 | lower-casing the status and vm state first does not change the answer |
| `InstanceChecks.CheckStatusSkipsCapitalised` | src/resources/instance.jsx:147-153 | list entries with a capital letter never match |
| `InstanceChecks.IsActiveOrShutOff` | src/resources/instance.jsx:162-163 | true exactly when the server is active or shut off |
| `InstanceChecks.IsShutOff` | src/resources/instance.jsx:165 | true exactly when the status or a set vm state is shutoff, in any case |
| `InstanceChecks.IsActive` | src/resources/instance.jsx:167 | true exactly when the status or a set vm state is active, in any case |
| `InstanceChecks.IsNotError` | src/resources/instance.jsx:169 | true exactly when neither the status nor a set vm state is error, in any case |
| `InstanceChecks.IsBuilding` | src/resources/instance.jsx:132 | true exactly when the status is exactly build; then the build status check passes too |
| `InstanceChecks.IsBuildingIsCaseSensitive` | src/resources/instance.jsx:132 | the status BUILD passes the build status check but is not building |
| `InstanceChecks.IsLocked` | src/resources/instance.jsx:143 | locked is the opposite of not locked |
| `InstanceChecks.IsNotLocked` | src/resources/instance.jsx:134 | true exactly when the lock flag is not set |
| `InstanceChecks.IsNotLockedOrAdmin` | src/resources/instance.jsx:155-160 | an unlocked server passes; a locked one passes exactly when the caller is an administrator, and the flag defaults to false |
| `InstanceChecks.IsNotDeleting` | src/resources/instance.jsx:136-141 | false exactly when a set task state is deleting, in any case |
| `InstanceChecks.IsIsoInstance` | src/resources/instance.jsx:171-174 | true exactly when the ISO flag is present and set |
| `InstanceChecks.FindRootVolume` | src/resources/instance.jsx:181-183 | the index of the first root volume, or none exactly when no volume qualifies |
| `InstanceChecks.HasRootVolume` | src/resources/instance.jsx:176-185 | true exactly when some attached volume is flagged root or sits at the root device name, which defaults to /dev/vda |
| `InstanceChecks.NoVolumesNoRoot` | src/resources/instance.jsx:179 | no attached volumes, or an undefined list, gives no root volume |
| `InstanceChecks.DefaultRootDevice` | src/resources/instance.jsx:178 | without a root device name, a volume at /dev/vda is the root volume |
| `InstanceChecks.IsIronicInstance` | src/resources/instance.jsx:291-297 | true exactly when one of the two bare-metal markers is set to its value in the flavor's extra specs |
| `InstanceChecks.NoFlavorNotIronic` | src/resources/instance.jsx:292 | a server without flavor information is not bare metal |
| `InstanceChecks.HasOnlineResizeFlavorAsWritten` | src/resources/instance.jsx:396-401 | throws exactly when the server, its flavor or its extra specs are missing; otherwise agrees with the corrected reading |
| `InstanceChecks.HasOnlineResizeFlavorThrowsWithoutFlavor` | src/resources/instance.jsx:396-401 | a server without flavor information, or no server at all, makes the code throw; the corrected reading answers false |
| `InstanceChecks.HasOnlineResizeFlavor` | src/resources/instance.jsx:396-401 | true exactly when the server's flavor sets hw:live_resize to a non-empty string |
| `InstanceChecks.LiveResizeFalseTextEnables` | src/resources/instance.jsx:400 | the spec value is a string, so the text "false" still counts as live resize |
| `InstanceChecks.GetIpInitValue` | src/resources/instance.jsx:272-278 | null without a subnet; throws when the pool list is missing or empty; otherwise the start address of the subnet's first pool |

## Left out

- The React parts of the file: the lock icons and `lockRender`, the table
  column and filter definitions, `PopUpContent` (an asynchronous store fetch),
  `actionColumn`, `actionMap` and `actionEvent`. They render or name things and
  decide nothing.
- `canCreateIronicByLicense`: a call into a global license store that is not
  part of this model.
- `t` and `getLocalTimeStr`: translation and time formatting are foreign
  library calls. `t` is the identity, so labels are the English message ids.
- The other files of the repository: page and tab configuration, and a
  delete action that is a single REST call.
- UserData.GetUserData: requires that neither input contains `$`. JavaScript
  reads `$&`, `$$`, `` $` `` and `$'` in a replacement string as patterns, and
  those are not modelled.
- `null` and `undefined` are one value (`None`). For getUserData, a `null`
  script would be written as the text `null`, and the model writes
  `undefined`. In the other helpers a destructuring default applies to
  `undefined` only, while a `null` field throws or is read as falsy. In
  hasRootVolume a `null` root device name is kept and compared with `===`,
  so a volume whose device is `null` is the root volume; the model
  substitutes /dev/vda for it instead.
- UserData.PasswordSpellingDataSentinel: requires that the prefix does not end
  in a character of `USER_DATA`. The sentinel overlaps no shift of itself, so
  the code splices the script in after any prefix without a sentinel, but the
  proof covers only a seam that no occurrence can straddle.
- Js.ToLowerCase: lower-cases ASCII letters only; JavaScript also folds other
  Unicode letters.
- InstanceChecks.CheckStatus: the status is a string. A server without a
  status makes the code throw on `toLowerCase`, and that case is not modelled.
  The code returns the falsy vm state itself where the model returns false.
- InstanceChecks.IsLocked: the lock flag is a boolean, as the compute API sends
  it; other truthy values are not modelled.
- InstanceChecks.IsIronicInstance: the server record itself is always present;
  the code throws without one.
- InstanceChecks.GetIpInitValue: a pool without a start address and the
  `null` result are both `None`.

## Findings

| source | as written | input that shows it | evidently intended | confidence | as-written member | corrected member |
|---|---|---|---|---|---|---|
| src/resources/instance.jsx:396-401 | `hasOnlineResizeFlavor` falls back to an empty object when the server or its `flavor_info` is missing, but then destructures `extra_specs` from that object without a default. The lookup of `hw:live_resize` in `undefined` throws a TypeError. | a server record without `flavor_info`, or no server at all | a server or flavor without extra specs has no live resize: the answer is false | not executed | `InstanceChecks.HasOnlineResizeFlavorAsWritten`, with `InstanceChecks.HasOnlineResizeFlavorThrowsWithoutFlavor` | `InstanceChecks.HasOnlineResizeFlavor` |
