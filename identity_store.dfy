/** The local identity store: the device's unique identifier (generated once,
    then kept) and the list of user names used on this device (no duplicates,
    in insertion order). Every change rewrites the whole document it belongs
    to; the ghost `writes` log records those rewrites in order. */
module IdentityStore {
  import opened Wrappers

  const MogadeDataFile := "mogade.dat"
  const UserNamesDataFile := "usernames.dat"

  datatype Configuration = Configuration(uniqueIdentifier: string)

  /** A whole document as written to one file. */
  datatype Doc = ConfigDoc(config: Configuration) | NamesDoc(names: seq<string>)

  datatype Write = Write(file: string, doc: Doc)

  /** The local folder: file name to contents. Opening a missing file
      creates it empty. */
  type Disk = map<string, string>

  /** Reading a document: a missing or empty file reads as absent, anything
      else is what the deserialiser makes of it (which may be null). */
  function Read<T>(disk: Disk, file: string, parse: string -> Option<T>): (r: Option<T>)
    ensures file !in disk || disk[file] == "" ==> r == None
    ensures file in disk && disk[file] != "" ==> r == parse(disk[file])
  {
    if file in disk && disk[file] != "" then parse(disk[file]) else None
  }

  predicate NoDuplicates(s: seq<string>) {
    forall i, j :: 0 <= i < j < |s| ==> s[i] != s[j]
  }

  // ---------------------------------------------------------------------
  // The unique identifier.

  /** The configuration after the identifier is asked for: the existing one,
      or a new one holding the freshly generated identifier. */
  function Provision(config: Option<Configuration>, guid: string): (c: Configuration)
    ensures config.Some? ==> c == config.value
    ensures config.None? ==> c == Configuration(guid)
  {
    config.GetOr(Configuration(guid))
  }

  /** The writes that provisioning performs: one, and only when there was no
      configuration. */
  function ProvisionWrites(config: Option<Configuration>, guid: string): (w: seq<Write>)
    ensures |w| <= 1
    ensures w == [] <==> config.Some?
    ensures config.None? ==> w == [Write(MogadeDataFile, ConfigDoc(Configuration(guid)))]
  {
    if config.None? then [Write(MogadeDataFile, ConfigDoc(Configuration(guid)))] else []
  }

  /** Once provisioned, the identifier never changes again, whatever
      identifier the generator would offer, and no further write happens. */
  lemma ProvisionStable(config: Option<Configuration>, g1: string, g2: string)
    ensures Provision(Some(Provision(config, g1)), g2) == Provision(config, g1)
    ensures ProvisionWrites(Some(Provision(config, g1)), g2) == []
    ensures |ProvisionWrites(config, g1) + ProvisionWrites(Some(Provision(config, g1)), g2)| == (if config.None? then 1 else 0)
  {
  }

  // ---------------------------------------------------------------------
  // The user names.

  /** `SaveUserName` on the list: a null or empty name, or one already
      present, leaves the list as it is; a new name goes at the end. */
  function SaveName(names: seq<string>, name: Option<string>): (r: seq<string>)
    ensures IsNullOrEmpty(name) || name.value in names ==> r == names
    ensures !IsNullOrEmpty(name) && name.value !in names ==> r == names + [name.value]
  {
    if IsNullOrEmpty(name) || name.value in names then names else names + [name.value]
  }

  /** Whether `SaveUserName` rewrites the user-name document. */
  predicate SaveChanges(names: seq<string>, name: Option<string>) {
    !IsNullOrEmpty(name) && name.value !in names
  }

  /** Saving keeps the list free of duplicates. */
  lemma SaveNameNoDuplicates(names: seq<string>, name: Option<string>)
    requires NoDuplicates(names)
    ensures NoDuplicates(SaveName(names, name))
  {
  }

  /** After saving, the list holds exactly the old names and the saved one. */
  lemma SaveNameMembers(names: seq<string>, name: Option<string>, x: string)
    ensures x in SaveName(names, name) <==> x in names || (!IsNullOrEmpty(name) && x == name.value)
  {
  }

  /** Saving the same name twice is saving it once. */
  lemma SaveNameIdempotent(names: seq<string>, name: Option<string>)
    ensures SaveName(SaveName(names, name), name) == SaveName(names, name)
    ensures !SaveChanges(SaveName(names, name), name)
  {
  }

  /** `List.Remove`: drops the first occurrence of `x`, if any. */
  function RemoveFirst(names: seq<string>, x: string): (r: seq<string>)
    ensures |r| == if x in names then |names| - 1 else |names|
  {
    if names == [] then []
    else if names[0] == x then names[1..]
    else [names[0]] + RemoveFirst(names[1..], x)
  }

  /** The position of the first occurrence of a present name. */
  function IndexOf(names: seq<string>, x: string): (i: nat)
    requires x in names
    ensures i < |names| && names[i] == x && x !in names[..i]
  {
    if names[0] == x then 0
    else
      var j := IndexOf(names[1..], x);
      assert names[..j + 1] == [names[0]] + names[1..][..j];
      j + 1
  }

  /** Removing a present name cuts it out at its first occurrence and keeps
      the entries before and after it, in order. */
  lemma {:induction false} RemoveFirstCuts(names: seq<string>, x: string)
    requires x in names
    ensures RemoveFirst(names, x) == names[..IndexOf(names, x)] + names[IndexOf(names, x) + 1..]
  {
    if names[0] != x {
      RemoveFirstCuts(names[1..], x);
      var j := IndexOf(names[1..], x);
      assert names[..j + 1] == [names[0]] + names[1..][..j];
      assert names[j + 2..] == names[1..][j + 1..];
    }
  }

  /** Removing an absent name changes nothing. */
  lemma {:induction false} RemoveFirstAbsent(names: seq<string>, x: string)
    requires x !in names
    ensures RemoveFirst(names, x) == names
  {
    if names != [] {
      RemoveFirstAbsent(names[1..], x);
    }
  }

  /** Removal takes away exactly one occurrence. */
  lemma {:induction false} RemoveFirstMultiset(names: seq<string>, x: string)
    ensures multiset(RemoveFirst(names, x)) == multiset(names) - multiset{x}
  {
    if names != [] {
      assert names == [names[0]] + names[1..];
      if names[0] != x {
        RemoveFirstMultiset(names[1..], x);
        assert RemoveFirst(names, x) == [names[0]] + RemoveFirst(names[1..], x);
      }
    }
  }

  /** Cutting one entry out of a list without duplicates leaves a list
      without duplicates that no longer holds that entry. */
  lemma CutNoDuplicates(names: seq<string>, i: nat)
    requires NoDuplicates(names) && i < |names|
    ensures names[i] !in names[..i] + names[i + 1..]
    ensures NoDuplicates(names[..i] + names[i + 1..])
  {
    var r := names[..i] + names[i + 1..];
    forall p, q | 0 <= p < q < |r| ensures r[p] != r[q] {
      var p' := if p < i then p else p + 1;
      var q' := if q < i then q else q + 1;
      assert r[p] == names[p'] && r[q] == names[q'];
    }
    forall k | 0 <= k < |r| ensures r[k] != names[i] {
      var k' := if k < i then k else k + 1;
      assert r[k] == names[k'];
    }
  }

  /** In a list without duplicates, a removed name is gone, and the list
      stays without duplicates. */
  lemma RemoveFirstNoDuplicates(names: seq<string>, x: string)
    requires NoDuplicates(names)
    ensures x !in RemoveFirst(names, x)
    ensures NoDuplicates(RemoveFirst(names, x))
  {
    if x in names {
      RemoveFirstCuts(names, x);
      CutNoDuplicates(names, IndexOf(names, x));
    } else {
      RemoveFirstAbsent(names, x);
    }
  }

  /** `RemoveUserName` on the list: a null or empty name changes nothing;
      otherwise the first occurrence of the name is removed. */
  function RemoveName(names: seq<string>, name: Option<string>): (r: seq<string>)
    ensures IsNullOrEmpty(name) ==> r == names
    ensures !IsNullOrEmpty(name) && name.value !in names ==> r == names
    ensures !IsNullOrEmpty(name) && name.value in names ==>
              r == names[..IndexOf(names, name.value)] + names[IndexOf(names, name.value) + 1..]
  {
    if IsNullOrEmpty(name) then names
    else if name.value in names then RemoveFirstCuts(names, name.value); RemoveFirst(names, name.value)
    else RemoveFirstAbsent(names, name.value); RemoveFirst(names, name.value)
  }

  /** Whether `RemoveUserName` rewrites the user-name document. */
  predicate RemoveChanges(names: seq<string>, name: Option<string>) {
    !IsNullOrEmpty(name) && name.value in names
  }

  /** Removing a name just saved undoes the save. */
  lemma SaveThenRemove(names: seq<string>, name: Option<string>)
    requires SaveChanges(names, name)
    ensures RemoveName(SaveName(names, name), name) == names
  {
    var s := names + [name.value];
    assert IndexOf(s, name.value) == |names|;
    assert s[..|names|] == names;
  }

  // ---------------------------------------------------------------------
  // The store object.

  class Storage {
    var configuration: Option<Configuration>
    var userNames: seq<string>
    ghost var writes: seq<Write>

    /** The constructor runs `Initialise` to completion. */
    constructor (disk: Disk, parseNames: string -> Option<seq<string>>,
                 parseConfig: string -> Option<Configuration>, guid: string)
      ensures userNames == Read(disk, UserNamesDataFile, parseNames).GetOr([])
      ensures configuration == Some(Provision(Read(disk, MogadeDataFile, parseConfig), guid))
      ensures writes == ProvisionWrites(Read(disk, MogadeDataFile, parseConfig), guid)
    {
      configuration := None;
      userNames := [];
      writes := [];
      new;
      Initialise(disk, parseNames, parseConfig, guid);
    }

    /** Loads both documents: an absent user-name list becomes the empty list;
        an absent configuration is generated and written, once. */
    method Initialise(disk: Disk, parseNames: string -> Option<seq<string>>,
                      parseConfig: string -> Option<Configuration>, guid: string)
      modifies this
      ensures userNames == Read(disk, UserNamesDataFile, parseNames).GetOr([])
      ensures configuration == Some(Provision(Read(disk, MogadeDataFile, parseConfig), guid))
      ensures writes == old(writes) + ProvisionWrites(Read(disk, MogadeDataFile, parseConfig), guid)
    {
      var read := Read(disk, UserNamesDataFile, parseNames);
      if read.None? {
        userNames := [];
      } else {
        userNames := read.value;
      }
      configuration := Read(disk, MogadeDataFile, parseConfig);
      if configuration.None? {
        configuration := Some(Configuration(guid));
        WriteToFile(ConfigDoc(configuration.value), MogadeDataFile);
      }
    }

    /** The identifier `GetUniqueIdentifier` would return. */
    function Identity(guid: string): string
      reads this
    {
      Provision(configuration, guid).uniqueIdentifier
    }

    /** The state change of `GetUniqueIdentifier`. */
    twostate predicate ProvisionedWith(guid: string)
      reads this
    {
      && configuration == Some(Provision(old(configuration), guid))
      && userNames == old(userNames)
      && writes == old(writes) + ProvisionWrites(old(configuration), guid)
    }

    /** Returns the stored identifier; with no configuration, one is created
        from the generated `guid`, written once and returned. */
    method GetUniqueIdentifier(guid: string) returns (id: string)
      modifies this
      ensures id == old(Identity(guid))
      ensures old(configuration).Some? ==> id == old(configuration).value.uniqueIdentifier && writes == old(writes)
      ensures ProvisionedWith(guid)
    {
      if configuration.None? {
        configuration := Some(Configuration(guid));
        WriteToFile(ConfigDoc(configuration.value), MogadeDataFile);
      }
      id := configuration.value.uniqueIdentifier;
    }

    method GetUserNames() returns (names: seq<string>)
      ensures names == userNames
    {
      names := userNames;
    }

    method SaveUserName(userName: Option<string>)
      modifies this
      ensures userNames == SaveName(old(userNames), userName)
      ensures writes == old(writes) + (if SaveChanges(old(userNames), userName) then [Write(UserNamesDataFile, NamesDoc(userNames))] else [])
      ensures configuration == old(configuration)
      ensures old(NoDuplicates(userNames)) ==> NoDuplicates(userNames)
    {
      if NoDuplicates(userNames) {
        SaveNameNoDuplicates(userNames, userName);
      }
      if IsNullOrEmpty(userName) { return; }
      if userName.value in userNames { return; }
      userNames := userNames + [userName.value];
      WriteToFile(NamesDoc(userNames), UserNamesDataFile);
    }

    method RemoveUserName(userName: Option<string>)
      modifies this
      ensures userNames == RemoveName(old(userNames), userName)
      ensures writes == old(writes) + (if RemoveChanges(old(userNames), userName) then [Write(UserNamesDataFile, NamesDoc(userNames))] else [])
      ensures configuration == old(configuration)
      ensures old(NoDuplicates(userNames)) && !IsNullOrEmpty(userName) ==> userName.value !in userNames
      ensures old(NoDuplicates(userNames)) ==> NoDuplicates(userNames)
    {
      if IsNullOrEmpty(userName) { return; }
      if NoDuplicates(userNames) {
        RemoveFirstNoDuplicates(userNames, userName.value);
      }
      var removed := ListRemove(userName.value);
      if !removed { return; }
      WriteToFile(NamesDoc(userNames), UserNamesDataFile);
    }

    /** `List.Remove` on the in-memory list: reports whether the name was
        present and drops its first occurrence. */
    method ListRemove(x: string) returns (removed: bool)
      modifies this`userNames
      ensures removed == (x in old(userNames))
      ensures userNames == RemoveFirst(old(userNames), x)
    {
      removed := x in userNames;
      userNames := RemoveFirst(userNames, x);
    }

    /** `WriteToFile`: replaces the whole file with the serialised document. */
    ghost method WriteToFile(doc: Doc, file: string)
      modifies this`writes
      ensures writes == old(writes) + [Write(file, doc)]
    {
      writes := writes + [Write(file, doc)];
    }
  }
}
