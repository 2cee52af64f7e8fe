/**
 ManageDevicesForm: the editor of the device list. It works on copies of the
 profiles it is given, appends new profiles, overwrites the selected profile in
 place, removes it on confirmation, and answers whether a name is taken.
 */
module ManageDevices {
  import opened Text
  import opened Forms

  /** CloneProfile: a new object with the name, path, speed and colour of `source`. */
  method CloneProfile(source: DeviceProfile) returns (clone: DeviceProfile)
    ensures fresh(clone)
    ensures clone.name == source.name && clone.devicePath == source.devicePath
    ensures clone.speed == source.speed && clone.iconColor == source.iconColor
  {
    clone := new DeviceProfile.Basic(source.name, source.devicePath, source.speed, source.iconColor);
  }

  /** No object occurs twice in the list. */
  ghost predicate Distinct(ps: seq<DeviceProfile>)
  {
    forall i, j | 0 <= i < j < |ps| :: ps[i] != ps[j]
  }

  /** Whether some profile of `ps` other than the object `ignore` carries `name`,
      compared ignoring case. */
  predicate AnyNameMatch(ps: seq<DeviceProfile>, name: string, ignore: DeviceProfile?)
    reads ps
    ensures AnyNameMatch(ps, name, ignore) <==>
      exists i | 0 <= i < |ps| :: ps[i] != ignore && EqualsIgnoreCase(ps[i].name, name)
  {
    if ps == [] then false
    else if ps[0] != ignore && EqualsIgnoreCase(ps[0].name, name) then true
    else
      var rest := AnyNameMatch(ps[1..], name, ignore);
      assert forall i | 1 <= i < |ps| :: ps[1..][i - 1] == ps[i];
      rest
  }

  /** Collection.IndexOf with reference equality: the first position of `x`, or |ps|. */
  function IndexOf(ps: seq<DeviceProfile>, x: DeviceProfile): (i: nat)
    ensures i <= |ps|
    ensures i < |ps| ==> ps[i] == x
    ensures forall j | 0 <= j < i :: ps[j] != x
  {
    if ps == [] then 0
    else if ps[0] == x then 0
    else 1 + IndexOf(ps[1..], x)
  }

  /** Collection.Remove: the first occurrence of `x` is taken out, if there is one. */
  function RemoveFirst(ps: seq<DeviceProfile>, x: DeviceProfile): seq<DeviceProfile>
  {
    var i := IndexOf(ps, x);
    if i < |ps| then ps[..i] + ps[i + 1..] else ps
  }

  /** Deleting position i removes one occurrence of that element from the multiset. */
  lemma {:induction false} DeleteAtMultiset(ps: seq<DeviceProfile>, i: nat)
    requires i < |ps|
    ensures multiset(ps[..i] + ps[i + 1..]) == multiset(ps) - multiset{ps[i]}
  {
    assert ps == ps[..i] + [ps[i]] + ps[i + 1..];
    assert multiset(ps) == multiset(ps[..i]) + multiset{ps[i]} + multiset(ps[i + 1..]);
  }

  /** In a list without duplicates, deleting position i removes that element entirely
      and leaves a list without duplicates. */
  lemma {:induction false} DeleteAtDistinct(ps: seq<DeviceProfile>, i: nat)
    requires i < |ps| && Distinct(ps)
    ensures ps[i] !in ps[..i] + ps[i + 1..]
    ensures Distinct(ps[..i] + ps[i + 1..])
  {
    var r := ps[..i] + ps[i + 1..];
    forall j | 0 <= j < |r|
      ensures r[j] == ps[if j < i then j else j + 1]
    {
    }
    forall j | 0 <= j < |r|
      ensures r[j] != ps[i]
    {
      assert r[j] == ps[if j < i then j else j + 1];
    }
    forall j, k | 0 <= j < k < |r|
      ensures r[j] != r[k]
    {
      assert r[j] == ps[if j < i then j else j + 1];
      assert r[k] == ps[if k < i then k else k + 1];
    }
  }

  /** Removing a profile that is not listed changes nothing. */
  lemma RemoveAbsent(ps: seq<DeviceProfile>, x: DeviceProfile)
    requires x !in ps
    ensures RemoveFirst(ps, x) == ps
  {
  }

  /** Removing a listed profile drops exactly one occurrence, at its first position,
      and keeps the other elements in their order. */
  lemma {:induction false} RemoveListed(ps: seq<DeviceProfile>, x: DeviceProfile)
    requires x in ps
    ensures |RemoveFirst(ps, x)| == |ps| - 1
    ensures multiset(RemoveFirst(ps, x)) == multiset(ps) - multiset{x}
    ensures exists k | 0 <= k < |ps| :: ps[k] == x && RemoveFirst(ps, x) == ps[..k] + ps[k + 1..]
  {
    var i := FirstPosition(ps, x);
    DeleteAtMultiset(ps, i);
  }

  /** In a list without duplicates, removing a listed profile removes it entirely and
      leaves a list without duplicates. */
  lemma {:induction false} RemoveListedDistinct(ps: seq<DeviceProfile>, x: DeviceProfile)
    requires x in ps && Distinct(ps)
    ensures x !in RemoveFirst(ps, x) && Distinct(RemoveFirst(ps, x))
  {
    var i := FirstPosition(ps, x);
    DeleteAtDistinct(ps, i);
  }

  /** A listed profile is found: IndexOf gives a position holding it, and Remove
      deletes that position. */
  lemma FirstPosition(ps: seq<DeviceProfile>, x: DeviceProfile) returns (i: nat)
    requires x in ps
    ensures i < |ps| && ps[i] == x && i == IndexOf(ps, x)
    ensures RemoveFirst(ps, x) == ps[..i] + ps[i + 1..]
  {
    i := IndexOf(ps, x);
    var k :| 0 <= k < |ps| && ps[k] == x;
    assert i <= k;
  }

  class ManageDevicesForm {
    var profiles: seq<DeviceProfile>

    /** The list never holds the same object twice. */
    ghost predicate Valid()
      reads this
    {
      Distinct(profiles)
    }

    /** Stores a clone of every given profile, in order, so that editing the list does
        not change the caller's objects. */
    constructor (source: seq<DeviceProfile>)
      ensures Valid()
      ensures |profiles| == |source|
      ensures forall i | 0 <= i < |profiles| :: fresh(profiles[i])
      ensures forall i | 0 <= i < |profiles| ::
        && profiles[i].name == source[i].name && profiles[i].devicePath == source[i].devicePath
        && profiles[i].speed == source[i].speed && profiles[i].iconColor == source[i].iconColor
    {
      var clones: seq<DeviceProfile> := [];
      var n := 0;
      while n < |source|
        invariant 0 <= n <= |source| && |clones| == n
        invariant Distinct(clones)
        invariant forall i | 0 <= i < n :: fresh(clones[i])
        invariant forall i | 0 <= i < n ::
          && clones[i].name == source[i].name && clones[i].devicePath == source[i].devicePath
          && clones[i].speed == source[i].speed && clones[i].iconColor == source[i].iconColor
      {
        var clone := CloneProfile(source[n]);
        clones := clones + [clone];
        n := n + 1;
      }
      profiles := clones;
    }

    /** NameExists: some listed profile other than `ignore` (compared by reference) has
        `name`, compared ignoring case. */
    predicate NameExists(name: string, ignore: DeviceProfile?)
      reads this, profiles
    {
      AnyNameMatch(profiles, name, ignore)
    }

    /** Without a profile to ignore, every listed profile is considered. */
    lemma NameExistsWithoutIgnore(name: string)
      ensures NameExists(name, null) <==>
        exists i | 0 <= i < |profiles| :: EqualsIgnoreCase(profiles[i].name, name)
    {
    }

    /** When the only profile carrying the name is the one being edited, the name does
        not count as taken for that edit, though it does for a new profile. */
    lemma {:induction false} NameOfEditedProfileIsFree(name: string, edited: DeviceProfile)
      requires edited in profiles && EqualsIgnoreCase(edited.name, name)
      requires forall i | 0 <= i < |profiles| && profiles[i] != edited ::
        !EqualsIgnoreCase(profiles[i].name, name)
      ensures !NameExists(name, edited)
      ensures NameExists(name, null)
    {
      var k :| 0 <= k < |profiles| && profiles[k] == edited;
    }

    /** The answer depends on the name only up to case. */
    lemma {:induction false} NameExistsIgnoresCase(n1: string, n2: string, ignore: DeviceProfile?)
      requires EqualsIgnoreCase(n1, n2)
      ensures NameExists(n1, ignore) == NameExists(n2, ignore)
    {
      if NameExists(n1, ignore) {
        var i :| 0 <= i < |profiles| && profiles[i] != ignore && EqualsIgnoreCase(profiles[i].name, n1);
        EqualsIgnoreCaseTransitive(profiles[i].name, n1, n2);
      }
      if NameExists(n2, ignore) {
        var i :| 0 <= i < |profiles| && profiles[i] != ignore && EqualsIgnoreCase(profiles[i].name, n2);
        EqualsIgnoreCaseSymmetric(n1, n2);
        EqualsIgnoreCaseTransitive(profiles[i].name, n2, n1);
      }
    }

    /** The Add button: the dialog's new profile, a newly built object, is appended
        only when the dialog returned OK with a profile. */
    method AddProfile(result: DialogResult, newProfile: DeviceProfile?)
      requires Valid()
      requires newProfile != null ==> newProfile !in profiles
      modifies this
      ensures Valid()
      ensures result == OK && newProfile != null ==>
        profiles == old(profiles) + [newProfile] && NameExists(newProfile.name, null)
      ensures !(result == OK && newProfile != null) ==> profiles == old(profiles)
    {
      if result == OK && newProfile != null {
        profiles := profiles + [newProfile];
        EqualsIgnoreCaseReflexive(newProfile.name);
        assert profiles[|profiles| - 1] == newProfile;
      }
    }

    /** The Edit button: with a selection and an accepted dialog, the selected profile
        takes the name, path, speed and colour of the dialog's profile; the list and
        every other profile stay as they were. */
    method EditSelectedProfile(selected: DeviceProfile?, result: DialogResult, edited: DeviceProfile?)
      requires Valid()
      requires selected != null ==> selected in profiles
      modifies selected
      ensures Valid() && profiles == old(profiles)
      ensures selected != null && result == OK && edited != null ==>
        && selected.name == old(edited.name) && selected.devicePath == old(edited.devicePath)
        && selected.speed == old(edited.speed) && selected.iconColor == old(edited.iconColor)
        && selected.options == old(selected.options)
      ensures !(selected != null && result == OK && edited != null) ==>
        selected == null || unchanged(selected)
      ensures forall i | 0 <= i < |profiles| && profiles[i] != selected :: unchanged(profiles[i])
    {
      if selected == null {
        return;
      }
      if result == OK && edited != null {
        var name, path, speed, color := edited.name, edited.devicePath, edited.speed, edited.iconColor;
        selected.name := name;
        selected.devicePath := path;
        selected.speed := speed;
        selected.iconColor := color;
      }
    }

    /** The Remove button: with a selection confirmed by Yes, the selected profile leaves
        the list and the others keep their order; otherwise nothing changes. */
    method RemoveSelectedProfile(selected: DeviceProfile?, confirm: DialogResult)
      requires Valid()
      requires selected != null ==> selected in profiles
      modifies this
      ensures Valid()
      ensures selected != null && confirm == Yes ==>
        && |profiles| == |old(profiles)| - 1
        && selected !in profiles
        && multiset(profiles) == multiset(old(profiles)) - multiset{selected}
        && exists k | 0 <= k < |old(profiles)| ::
             old(profiles)[k] == selected && profiles == old(profiles)[..k] + old(profiles)[k + 1..]
      ensures !(selected != null && confirm == Yes) ==> profiles == old(profiles)
    {
      if selected == null {
        return;
      }
      if confirm == Yes {
        RemoveListed(profiles, selected);
        RemoveListedDistinct(profiles, selected);
        profiles := RemoveFirst(profiles, selected);
      }
    }
  }
}
