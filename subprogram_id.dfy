/**
 * Subprogram identifiers (scene/src/subprogram_id.rs).
 *
 * Well-known subprogram names are interned: a global vector holds the names in the order they
 * were first seen (`NAMES_FOR_IDS`) and a map gives each name its index (`IDS_FOR_NAMES`).
 * `SubProgramNames` is that pair of globals; `Intern` is the pure specification of
 * `id_for_name` on the vector alone, and the lemmas below state what interning promises.
 */
module SubProgramIds {
  import opened Wrappers

  /** `SubProgramNameId`: the index of an interned name. */
  datatype SubProgramNameId = SubProgramNameId(index: nat)

  /** A GUID; `Uuid::new_v4()` is random, so new GUIDs are given as parameters. */
  datatype Uuid = Uuid(bits: nat)

  /** `SubProgramIdValue` (the `SubProgramId` newtype adds nothing to it). */
  datatype SubProgramId =
    | Named(name: SubProgramNameId)
    | Guid(guid: Uuid)
    | NamedTask(name: SubProgramNameId, serial: nat)
    | GuidTask(guid: Uuid, serial: nat)

  // ---------------------------------------------------------------------------------------
  // Specification of the name table

  /** The first index at which `name` occurs in `names`, if any. */
  function IndexOf(names: seq<string>, name: string): (r: Option<nat>)
    ensures r.None? <==> name !in names
    ensures r.Some? ==> r.value < |names| && names[r.value] == name
    ensures r.Some? ==> forall j :: 0 <= j < r.value ==> names[j] != name
  {
    if names == [] then None
    else if names[0] == name then Some(0)
    else match IndexOf(names[1..], name)
      case None => None
      case Some(i) => Some(i + 1)
  }

  /** No name is interned twice. */
  ghost predicate Distinct(names: seq<string>)
  {
    forall i, j :: 0 <= i < j < |names| ==> names[i] != names[j]
  }

  /**
   * `id_for_name` on the name vector: an existing name keeps its index and nothing is added;
   * a new name is pushed and gets the old length of the vector as its index.
   */
  function Intern(names: seq<string>, name: string): (seq<string>, nat)
  {
    match IndexOf(names, name)
    case Some(i) => (names, i)
    case None => (names + [name], |names|)
  }

  /** `name_for_id` on the name vector: `Vec::get(id).cloned()`. */
  function NameForIndex(names: seq<string>, index: nat): Option<string>
  {
    if index < |names| then Some(names[index]) else None
  }

  lemma IndexOfDistinct(names: seq<string>, i: nat)
    requires Distinct(names) && i < |names|
    ensures IndexOf(names, names[i]) == Some(i)
  {
  }

  /** Interning a name that is already present returns its id and adds nothing. */
  lemma InternIdempotent(names: seq<string>, name: string)
    ensures var (names', id) := Intern(names, name);
      Intern(names', name) == (names', id)
  {
    var (names', id) := Intern(names, name);
    if name !in names {
      assert names'[|names|] == name;
      assert IndexOf(names', name) == Some(|names|);
    }
  }

  /**
   * A fresh name gets the previous number of interned names as its id, and the names
   * interned before keep their ids: ids are dense and grow by one.
   */
  lemma InternFreshIsDense(names: seq<string>, name: string)
    ensures var (names', id) := Intern(names, name);
      && names'[..|names|] == names
      && (name !in names ==> id == |names| && |names'| == |names| + 1)
      && (name in names ==> names' == names && id < |names|)
  {
    var (names', id) := Intern(names, name);
    assert names'[..|names|] == names;
  }

  /** Round trip: looking up the id that interning returns gives back the name. */
  lemma InternRoundTrip(names: seq<string>, name: string)
    ensures var (names', id) := Intern(names, name);
      NameForIndex(names', id) == Some(name)
  {
  }

  /** Interning keeps the table free of duplicates, so distinct names get distinct ids. */
  lemma InternKeepsDistinct(names: seq<string>, name: string)
    requires Distinct(names)
    ensures Distinct(Intern(names, name).0)
  {
  }

  /** Two names interned one after the other get equal ids exactly when they are equal. */
  lemma InternInjective(names: seq<string>, a: string, b: string)
    requires Distinct(names)
    ensures var (names1, idA) := Intern(names, a);
      var (names2, idB) := Intern(names1, b);
      idA == idB <==> a == b
  {
    var (names1, idA) := Intern(names, a);
    InternKeepsDistinct(names, a);
    InternFreshIsDense(names, a);
    InternFreshIsDense(names1, b);
    InternRoundTrip(names, a);
    InternRoundTrip(names1, b);
  }

  /** `name_for_id` gives `None` exactly at or beyond the number of interned names, and the interned name below it. */
  lemma NameForIndexIsLookup(names: seq<string>, index: nat)
    ensures NameForIndex(names, index) == None <==> index >= |names|
    ensures index < |names| ==> NameForIndex(names, index) == Some(names[index])
  {
  }

  /**
   * Serialising a name id writes its name and deserialising a name interns it: in a table
   * without duplicates, deserialising what was serialised gives the same id and adds nothing.
   */
  lemma DeserializeSerialize(names: seq<string>, index: nat)
    requires Distinct(names) && index < |names|
    ensures NameForIndex(names, index).Some?
    ensures Intern(names, NameForIndex(names, index).value) == (names, index)
  {
    IndexOfDistinct(names, index);
  }

  // ---------------------------------------------------------------------------------------
  // The global tables

  /** `IDS_FOR_NAMES` and `NAMES_FOR_IDS`. */
  class SubProgramNames {
    var namesForIds: seq<string>
    var idsForNames: map<string, SubProgramNameId>

    /** The map and the vector are inverse to each other. */
    ghost predicate Valid()
      reads this
    {
      && (forall n :: n in idsForNames ==>
            idsForNames[n].index < |namesForIds| && namesForIds[idsForNames[n].index] == n)
      && (forall i :: 0 <= i < |namesForIds| ==>
            namesForIds[i] in idsForNames && idsForNames[namesForIds[i]].index == i)
    }

    constructor ()
      ensures Valid() && namesForIds == [] && idsForNames == map[]
    {
      namesForIds := [];
      idsForNames := map[];
    }

    lemma ValidIsDistinct()
      requires Valid()
      ensures Distinct(namesForIds)
    {
      forall i, j | 0 <= i < j < |namesForIds|
        ensures namesForIds[i] != namesForIds[j]
      {
        assert idsForNames[namesForIds[i]].index == i;
        assert idsForNames[namesForIds[j]].index == j;
      }
    }

    /** `id_for_name` (lines 14-37), run without interleaving. */
    method IdForName(name: string) returns (id: SubProgramNameId)
      requires Valid()
      modifies this
      ensures Valid()
      ensures (namesForIds, id.index) == Intern(old(namesForIds), name)
      ensures name in idsForNames && idsForNames[name] == id
      ensures forall n :: n in old(idsForNames) ==> n in idsForNames && idsForNames[n] == old(idsForNames[n])
    {
      ValidIsDistinct();
      if name in idsForNames {
        id := idsForNames[name];
        IndexOfDistinct(namesForIds, id.index);
      } else {
        id := SubProgramNameId(|namesForIds|);
        namesForIds := namesForIds + [name];
        idsForNames := idsForNames[name := id];
      }
    }

    /** `name_for_id` (lines 39-41). */
    function NameForId(id: SubProgramNameId): (r: Option<string>)
      reads this
      ensures r.Some? <==> id.index < |namesForIds|
      ensures Valid() && r.Some? ==> r.value in idsForNames && idsForNames[r.value] == id
    {
      NameForIndex(namesForIds, id.index)
    }

    /** `SubProgramId::called` (lines 95-97). */
    method Called(name: string) returns (id: SubProgramId)
      requires Valid()
      modifies this
      ensures Valid()
      ensures namesForIds == Intern(old(namesForIds), name).0
      ensures id == Named(SubProgramNameId(Intern(old(namesForIds), name).1))
      ensures name in idsForNames && id == Named(idsForNames[name])
      ensures forall n :: n in old(idsForNames) ==> n in idsForNames && idsForNames[n] == old(idsForNames[n])
    {
      var nameId := IdForName(name);
      id := Named(nameId);
    }

    /** `Serialize for SubProgramNameId` (lines 138-146): the name, unwrapped (an unknown id panics). */
    method SerializeNameId(id: SubProgramNameId) returns (s: string)
      requires id.index < |namesForIds|
      ensures NameForId(id) == Some(s)
    {
      s := namesForIds[id.index];
    }

    /**
     * `Deserialize for SubProgramNameId` (lines 149-179): read a string, failing as the
     * deserializer fails, then intern it.
     */
    method DeserializeNameId<E>(read: Result<string, E>) returns (r: Result<SubProgramNameId, E>)
      requires Valid()
      modifies this
      ensures Valid()
      ensures read.Err? ==> r == Err(read.error) && namesForIds == old(namesForIds)
      ensures read.Ok? ==> r.Ok? && (namesForIds, r.value.index) == Intern(old(namesForIds), read.value)
    {
      if read.Err? {
        r := Err(read.error);
      } else {
        var id := IdForName(read.value);
        r := Ok(id);
      }
    }
  }

  // ---------------------------------------------------------------------------------------
  // Subprogram ids

  /** `SubProgramId::new`: a fresh GUID id (the random GUID is the parameter). */
  function NewSubProgramId(guid: Uuid): (r: SubProgramId)
    ensures r.Guid? && r.guid == guid
  {
    Guid(guid)
  }

  /** The name or GUID a subprogram id is derived from, without any task serial. */
  function Origin(id: SubProgramId): SubProgramId
  {
    match id
    case Named(n) => Named(n)
    case NamedTask(n, _) => Named(n)
    case Guid(g) => Guid(g)
    case GuidTask(g, _) => Guid(g)
  }

  /** `with_command_id` (lines 102-110). */
  function WithCommandId(id: SubProgramId, serial: nat): (r: SubProgramId)
    ensures r.NamedTask? || r.GuidTask?
    ensures r.serial == serial
    ensures Origin(r) == Origin(id)
    ensures r.NamedTask? <==> (id.Named? || id.NamedTask?)
  {
    match id
    case Named(n) => NamedTask(n, serial)
    case NamedTask(n, _) => NamedTask(n, serial)
    case Guid(g) => GuidTask(g, serial)
    case GuidTask(g, _) => GuidTask(g, serial)
  }

  /** Replacing the serial twice is replacing it once with the second serial. */
  lemma WithCommandIdTwice(id: SubProgramId, first: nat, second: nat)
    ensures WithCommandId(WithCommandId(id, first), second) == WithCommandId(id, second)
  {
  }

  /** `StaticSubProgramId`: a name and a cell that caches the id once it has been computed. */
  class StaticSubProgramId {
    const name: string
    var cell: Option<SubProgramId>

    /** `StaticSubProgramId::called` (lines 118-120): the cell starts empty. */
    constructor (name: string)
      ensures this.name == name && cell == None
    {
      this.name := name;
      cell := None;
    }

    /** A filled cell holds the id the name table gives the name. */
    ghost predicate ConsistentWith(names: SubProgramNames)
      reads this, names
    {
      cell.Some? ==> name in names.idsForNames && cell.value == Named(names.idsForNames[name])
    }

    /**
     * `Deref for StaticSubProgramId` (lines 127-134): every call gives `SubProgramId::called(name)`;
     * only the first call interns the name and fills the cell.
     */
    method Deref(names: SubProgramNames) returns (id: SubProgramId)
      requires names.Valid() && ConsistentWith(names)
      modifies this, names
      ensures names.Valid() && ConsistentWith(names)
      ensures cell == Some(id)
      ensures name in names.idsForNames && id == Named(names.idsForNames[name])
      ensures names.namesForIds == Intern(old(names.namesForIds), name).0
      ensures id == Named(SubProgramNameId(Intern(old(names.namesForIds), name).1))
      ensures old(cell).Some? ==> id == old(cell).value && names.namesForIds == old(names.namesForIds)
    {
      if cell.Some? {
        id := cell.value;
        names.ValidIsDistinct();
        IndexOfDistinct(names.namesForIds, names.idsForNames[name].index);
      } else {
        id := names.Called(name);
        cell := Some(id);
      }
    }
  }
}
