/**
 * The extension-version editor: the patch bump that proposes the next version, and the
 * load / edit / confirm / cancel handlers over the editor's state. The backend calls are given as
 * their outcomes.
 */
module VersionUpdate {
  import opened Basics
  import opened Text
  import opened Types

  /** `${n}` of a JavaScript number that is an integer, or `NaN` (`None`). */
  function NumberText(n: Option<int>): (s: string)
    ensures '.' !in s
  {
    match n
    case None => "NaN"
    case Some(v) => IntToString(v)
  }

  /** The patch after the bump: `parseInt` of the old patch plus one, or NaN. */
  function BumpedPatch(patch: string): Option<int> {
    match ParseInt(patch)
    case None => None
    case Some(v) => Some(v + 1)
  }

  /**
   * `incrementVersion`: with at least three dot-separated parts, the first two parts, then
   * `parseInt` of the third plus one; any later parts are dropped. Otherwise the version as it is.
   */
  function Increment(version: string): (r: string)
    ensures Count(version, '.') < 2 ==> r == version
  {
    var parts := Split(version, '.');
    if |parts| >= 3 then
      parts[0] + "." + parts[1] + "." + NumberText(BumpedPatch(parts[2]))
    else version
  }

  /** Three parts separated by dots, the first two without dots, split back into those parts. */
  lemma {:induction false} SplitThree(a: string, b: string, c: string)
    requires '.' !in a && '.' !in b && '.' !in c
    ensures Split(a + "." + b + "." + c, '.') == [a, b, c]
  {
    assert a + "." + b + "." + c == a + ['.'] + (b + ['.'] + c);
    SplitAround(a, b + ['.'] + c, '.');
    SplitAround(b, c, '.');
    SplitWithout(c, '.');
  }

  /**
   * A version with at least three parts becomes exactly three parts: its first two parts as they
   * were and the bumped patch.
   */
  lemma {:induction false} IncrementShape(version: string)
    requires Count(version, '.') >= 2
    ensures var p := Split(version, '.');
      Split(Increment(version), '.') == [p[0], p[1], NumberText(BumpedPatch(p[2]))]
  {
    var p := Split(version, '.');
    SplitThree(p[0], p[1], NumberText(BumpedPatch(p[2])));
  }

  /** A decimal patch is incremented by one: `major.minor.n` becomes `major.minor.(n+1)`. */
  lemma {:induction false} IncrementBumpsPatch(major: string, minor: string, patch: nat)
    requires '.' !in major && '.' !in minor
    ensures Increment(major + "." + minor + "." + NatToString(patch)) == major + "." + minor + "." + NatToString(patch + 1)
  {
    var p := NatToString(patch);
    assert '.' !in p;
    SplitThree(major, minor, p);
    ParseIntOfNatToString(patch);
  }

  /** Parts after the third make no difference. */
  lemma {:induction false} IncrementDropsExtra(major: string, minor: string, patch: string, extra: string)
    requires '.' !in major && '.' !in minor && '.' !in patch
    ensures Increment(major + "." + minor + "." + patch + "." + extra) == Increment(major + "." + minor + "." + patch)
  {
    var v := major + "." + minor + "." + patch + "." + extra;
    assert v == major + ['.'] + (minor + ['.'] + (patch + ['.'] + extra));
    SplitAround(major, minor + ['.'] + (patch + ['.'] + extra), '.');
    SplitAround(minor, patch + ['.'] + extra, '.');
    SplitAround(patch, extra, '.');
    var parts := Split(v, '.');
    assert parts == [major] + ([minor] + ([patch] + Split(extra, '.')));
    assert parts[0] == major && parts[1] == minor && parts[2] == patch && |parts| >= 3;
    IncrementOfParts(v);
    SplitThree(major, minor, patch);
    IncrementOfParts(major + "." + minor + "." + patch);
  }

  lemma {:induction false} IncrementOfParts(version: string)
    requires |Split(version, '.')| >= 3
    ensures var p := Split(version, '.');
      Increment(version) == p[0] + "." + p[1] + "." + NumberText(BumpedPatch(p[2]))
  {
  }

  const LoadFailedToast := Toast("Error", "Failed to load current extension version", true)
  const UpdateFailedToast := Toast("Error", "Failed to update extension version", true)

  /** The success toast after an update: not an error, and it ends with the version just set. */
  function UpdatedToast(version: string): (t: Toast)
    ensures t.title == "Success" && !t.destructive
    ensures EndsWith(t.description, version)
  {
    var prefix := "Extension version updated to ";
    assert (prefix + version)[|prefix|..] == version;
    Toast("Success", prefix + version, false)
  }

  /** The editor's state. */
  class VersionEditor {
    var currentVersion: string
    var newVersion: string
    var isEditing: bool
    var isLoading: bool
    var isUpdating: bool
    var showConfirmDialog: bool
    /** The notifications shown so far, oldest first. */
    var toasts: seq<Toast>

    constructor()
      ensures currentVersion == "" && newVersion == "" && !isEditing && !isLoading && !isUpdating
      ensures !showConfirmDialog && toasts == []
    {
      currentVersion, newVersion := "", "";
      isEditing, isLoading, isUpdating, showConfirmDialog := false, false, false, false;
      toasts := [];
    }

    /** Loading the latest version: on success it is current and its bump is proposed; a failure changes neither. */
    method LoadCurrentVersion(response: Result<string, string>)
      modifies this
      ensures response.Ok? ==> currentVersion == response.value && newVersion == Increment(response.value)
      ensures response.Ok? ==> toasts == old(toasts)
      ensures response.Err? ==> currentVersion == old(currentVersion) && newVersion == old(newVersion)
      ensures response.Err? ==> toasts == old(toasts) + [LoadFailedToast]
      ensures !isLoading
      ensures isEditing == old(isEditing) && isUpdating == old(isUpdating) && showConfirmDialog == old(showConfirmDialog)
    {
      isLoading := true;
      if response.Ok? {
        currentVersion := response.value;
        newVersion := Increment(response.value);
      } else {
        toasts := toasts + [LoadFailedToast];
      }
      isLoading := false;
    }

    /** The edit button proposes the bump of the current version. */
    method EditClick()
      modifies this
      ensures isEditing && newVersion == Increment(currentVersion)
      ensures currentVersion == old(currentVersion) && isLoading == old(isLoading) && isUpdating == old(isUpdating)
      ensures showConfirmDialog == old(showConfirmDialog) && toasts == old(toasts)
    {
      isEditing := true;
      newVersion := Increment(currentVersion);
    }

    /** Typing into the version input. */
    method EditNewVersion(value: string)
      modifies this
      ensures newVersion == value
      ensures currentVersion == old(currentVersion) && isEditing == old(isEditing) && isLoading == old(isLoading)
      ensures isUpdating == old(isUpdating) && showConfirmDialog == old(showConfirmDialog) && toasts == old(toasts)
    {
      newVersion := value;
    }

    method SaveClick()
      modifies this
      ensures showConfirmDialog
      ensures currentVersion == old(currentVersion) && newVersion == old(newVersion) && isEditing == old(isEditing)
      ensures isLoading == old(isLoading) && isUpdating == old(isUpdating) && toasts == old(toasts)
    {
      showConfirmDialog := true;
    }

    /** The dialog opened or closed by the dialog itself (its Cancel button or a click outside). */
    method SetDialogOpen(open: bool)
      modifies this
      ensures showConfirmDialog == open
      ensures currentVersion == old(currentVersion) && newVersion == old(newVersion) && isEditing == old(isEditing)
      ensures isLoading == old(isLoading) && isUpdating == old(isUpdating) && toasts == old(toasts)
    {
      showConfirmDialog := open;
    }

    /**
     * Confirming the update: only when the backend accepts it does the proposed version become
     * current, editing end and the dialog close; a failure leaves them as they were.
     */
    method ConfirmUpdate(outcome: Result<Unit, string>)
      modifies this
      ensures outcome.Ok? ==> currentVersion == old(newVersion) && !isEditing && !showConfirmDialog
      ensures outcome.Ok? ==> toasts == old(toasts) + [UpdatedToast(old(newVersion))]
      ensures outcome.Err? ==> currentVersion == old(currentVersion) && isEditing == old(isEditing)
      ensures outcome.Err? ==> showConfirmDialog == old(showConfirmDialog) && toasts == old(toasts) + [UpdateFailedToast]
      ensures newVersion == old(newVersion) && !isUpdating && isLoading == old(isLoading)
    {
      isUpdating := true;
      if outcome.Ok? {
        currentVersion := newVersion;
        isEditing := false;
        showConfirmDialog := false;
        toasts := toasts + [UpdatedToast(newVersion)];
      } else {
        toasts := toasts + [UpdateFailedToast];
      }
      isUpdating := false;
    }

    /** Cancel ends editing and proposes the bump of the current version again. */
    method Cancel()
      modifies this
      ensures !isEditing && newVersion == Increment(currentVersion)
      ensures currentVersion == old(currentVersion) && isLoading == old(isLoading) && isUpdating == old(isUpdating)
      ensures showConfirmDialog == old(showConfirmDialog) && toasts == old(toasts)
    {
      isEditing := false;
      newVersion := Increment(currentVersion);
    }
  }
}
