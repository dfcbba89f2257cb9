/** What the platform device enumerator reports, and the two read-only
    lookups AudioEngine.GetDeviceId and AudioEngine.GetDeviceName perform
    over it, as pure functions of one enumeration. */
module Endpoints {
  import opened Text

  datatype Option<T> = None | Some(value: T)

  /** One active render endpoint: its platform id and its friendly name. */
  datatype Endpoint = Endpoint(id: string, friendlyName: string)

  /** The enumerator at one instant: the active render endpoints in the
      order EnumAudioEndpoints yields them, and the default multimedia
      render endpoint, if there is one. */
  datatype Platform = Platform(active: seq<Endpoint>, defaultEndpoint: Option<Endpoint>)

  /** The sentinel that means "follow the system default". */
  const DefaultDeviceName: string := "Default"
  const DefaultDeviceId: string := "0"

  /** Why a lookup gives no answer: no active endpoint matched (the
      source throws "The specified audio device doesn't exist"), or the
      enumerator was never created because audio is disabled (the source
      dereferences a null enumerator). */
  datatype LookupError = NotFound | NoEnumerator

  datatype Lookup = Found(value: string) | Failure(error: LookupError)

  /** Which side of an endpoint a lookup compares against. */
  datatype Field = ById | ByName

  function Key(e: Endpoint, f: Field): string
  {
    match f
    case ById => e.id
    case ByName => e.friendlyName
  }

  predicate Matches(e: Endpoint, f: Field, key: string)
  {
    SameText(Key(e, f), key)
  }

  /** Position i holds the first endpoint whose field matches key up to case. */
  predicate IsFirstMatch(eps: seq<Endpoint>, f: Field, key: string, i: int)
  {
    0 <= i < |eps| && Matches(eps[i], f, key) &&
    forall j :: 0 <= j < i ==> !Matches(eps[j], f, key)
  }

  /** The foreach with early return of both lookups: the position of the
      first match, or None when the scan runs off the end. */
  function FindFirst(eps: seq<Endpoint>, f: Field, key: string): (r: Option<nat>)
    ensures r.Some? ==> IsFirstMatch(eps, f, key, r.value)
    ensures r.None? ==> forall j :: 0 <= j < |eps| ==> !Matches(eps[j], f, key)
  {
    if eps == [] then None
    else if Matches(eps[0], f, key) then Some(0)
    else
      match FindFirst(eps[1..], f, key)
      case None => None
      case Some(k) =>
        assert forall j :: 1 <= j <= k ==> eps[j] == eps[1..][j - 1];
        Some(k + 1)
  }

  /** Two first matches are the same position. */
  lemma FirstMatchUnique(eps: seq<Endpoint>, f: Field, key: string, i: int, j: int)
    requires IsFirstMatch(eps, f, key, i) && IsFirstMatch(eps, f, key, j)
    ensures i == j
  {
  }

  /** GetDeviceId over one enumeration: the sentinel name maps to the
      sentinel id without a scan; any other name maps to the id of the
      first active endpoint whose friendly name equals it up to case, and
      to NotFound when there is none. */
  function IdForName(active: seq<Endpoint>, deviceName: string): (r: Lookup)
    ensures deviceName == DefaultDeviceName ==> r == Found(DefaultDeviceId)
    ensures deviceName != DefaultDeviceName ==>
      (r.Found? <==> exists i :: 0 <= i < |active| && Matches(active[i], ByName, deviceName))
    ensures deviceName != DefaultDeviceName && r.Found? ==>
      exists i :: IsFirstMatch(active, ByName, deviceName, i) && r.value == active[i].id
    ensures r.Failure? ==> r.error == NotFound
  {
    if deviceName == DefaultDeviceName then Found(DefaultDeviceId)
    else
      match FindFirst(active, ByName, deviceName)
      case Some(i) => Found(active[i].id)
      case None => Failure(NotFound)
  }

  /** GetDeviceName over one enumeration: the sentinel id maps to the
      sentinel name without a scan; any other id maps to the friendly name
      of the first active endpoint whose id equals it up to case, and to
      NotFound when there is none. */
  function NameForId(active: seq<Endpoint>, deviceId: string): (r: Lookup)
    ensures deviceId == DefaultDeviceId ==> r == Found(DefaultDeviceName)
    ensures deviceId != DefaultDeviceId ==>
      (r.Found? <==> exists i :: 0 <= i < |active| && Matches(active[i], ById, deviceId))
    ensures deviceId != DefaultDeviceId && r.Found? ==>
      exists i :: IsFirstMatch(active, ById, deviceId, i) && r.value == active[i].friendlyName
    ensures r.Failure? ==> r.error == NotFound
  {
    if deviceId == DefaultDeviceId then Found(DefaultDeviceName)
    else
      match FindFirst(active, ById, deviceId)
      case Some(i) => Found(active[i].friendlyName)
      case None => Failure(NotFound)
  }

  /** No two active endpoints have ids that are equal up to case, and none
      uses the sentinel id (platform ids are long GUID paths). */
  predicate DistinctIds(active: seq<Endpoint>)
  {
    (forall i, j :: 0 <= i < j < |active| ==> !SameText(active[i].id, active[j].id)) &&
    (forall i :: 0 <= i < |active| ==> active[i].id != DefaultDeviceId)
  }

  /** No two active endpoints have friendly names that are equal up to case,
      and none is named exactly like the sentinel. */
  predicate DistinctNames(active: seq<Endpoint>)
  {
    (forall i, j :: 0 <= i < j < |active| ==> !SameText(active[i].friendlyName, active[j].friendlyName)) &&
    (forall i :: 0 <= i < |active| ==> active[i].friendlyName != DefaultDeviceName)
  }

  /** Resolving a name to an id and the id back to a name ends at the
      friendly name of the first endpoint the name matched, which equals
      the name up to case, as long as ids are distinct up to case and none
      is exactly the sentinel id. */
  lemma NameOfIdOfName(active: seq<Endpoint>, deviceName: string)
    requires DistinctIds(active)
    requires IdForName(active, deviceName).Found?
    ensures NameForId(active, IdForName(active, deviceName).value).Found?
    ensures SameText(NameForId(active, IdForName(active, deviceName).value).value, deviceName)
  {
  }

  /** Why DistinctIds excludes the sentinel id: an endpoint with id "0" is
      found by name, but its id answers the sentinel name on the way back. */
  lemma SentinelIdBreaksRoundTrip()
    ensures IdForName([Endpoint("0", "Speakers")], "Speakers") == Found("0")
    ensures NameForId([Endpoint("0", "Speakers")], "0") == Found(DefaultDeviceName)
    ensures !SameText(DefaultDeviceName, "Speakers")
  {
    assert Matches(Endpoint("0", "Speakers"), ByName, "Speakers");
    assert Lower(DefaultDeviceName)[0] != Lower("Speakers")[0];
  }

  /** Resolving an id to a name and the name back to an id ends at the id
      of the first endpoint the id matched, which equals the id up to case,
      as long as friendly names are distinct and none is "Default". */
  lemma IdOfNameOfId(active: seq<Endpoint>, deviceId: string)
    requires DistinctNames(active)
    requires NameForId(active, deviceId).Found?
    ensures IdForName(active, NameForId(active, deviceId).value).Found?
    ensures SameText(IdForName(active, NameForId(active, deviceId).value).value, deviceId)
  {
  }

  /** The friendly names of an enumeration, in enumeration order. */
  function Names(eps: seq<Endpoint>): (r: seq<string>)
    ensures |r| == |eps|
    ensures forall i :: 0 <= i < |eps| ==> r[i] == eps[i].friendlyName
  {
    if eps == [] then [] else Names(eps[..|eps| - 1]) + [eps[|eps| - 1].friendlyName]
  }
}
