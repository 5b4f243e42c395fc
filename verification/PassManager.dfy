/** The pass list of one brand: the brand lookup in browser storage, the
    choice between the server's list and the cached copy, refresh, cache
    clearing, deletion from the list and the "Active" count. */
module PassManager {
  import opened Wrappers
  import opened Js
  import ListOps

  /** A pass or brand record as the server or storage hands it over. */
  type Record = Entries

  const BrandsKey := "brands"
  const BrandNotFound := "Brand not found"
  const LoadFailed := "Failed to load data"

  /** The storage key of a brand's cached passes. */
  function PassesKey(brandId: string): string {
    "passes_" + brandId
  }

  /** Cache keys never clash with the brand list or with another brand's. */
  lemma PassesKeysDistinct(a: string, b: string)
    ensures PassesKey(a) != BrandsKey
    ensures PassesKey(a) == PassesKey(b) <==> a == b
  {
    assert PassesKey(a)[0] == 'p';
    if PassesKey(a) == PassesKey(b) {
      assert a == PassesKey(a)[7..] && b == PassesKey(b)[7..];
    }
  }

  /** What `JSON.parse` makes of a stored text: an array of objects, some
      other JSON value, or text it rejects. */
  datatype StoredText = ObjectArray(items: seq<Record>) | OtherJson | Malformed

  /** The browser's key–value store. */
  class Storage {
    var items: map<string, StoredText>

    constructor(initial: map<string, StoredText>)
      ensures items == initial
    {
      items := initial;
    }

    function GetItem(key: string): (v: Option<StoredText>)
      reads this
      ensures v.Some? <==> key in items
      ensures v.Some? ==> v.value == items[key]
    {
      if key in items then Some(items[key]) else None
    }

    method SetItem(key: string, v: StoredText)
      modifies this
      ensures items == old(items)[key := v]
    {
      items := items[key := v];
    }

    method RemoveItem(key: string)
      modifies this
      ensures items == old(items) - {key}
    {
      items := items - {key};
    }
  }

  /** The first record whose `id` is `brandId` (`brands.find(b => b.id === brandId)`). */
  function FindById(records: seq<Record>, brandId: string): (r: Option<Record>)
    ensures r.Some? ==> r.value in records && Get(r.value, "id") == Str(brandId)
    ensures r.None? <==> forall i :: 0 <= i < |records| ==> Get(records[i], "id") != Str(brandId)
    ensures forall j :: 0 <= j < |records| && Get(records[j], "id") == Str(brandId) ==>
                          (forall i :: 0 <= i < j ==> Get(records[i], "id") != Str(brandId)) ==> r == Some(records[j])
  {
    if records == [] then None
    else if Get(records[0], "id") == Str(brandId) then Some(records[0])
    else
      var rest := FindById(records[1..], brandId);
      assert forall i :: 1 <= i < |records| ==> records[i] == records[1..][i - 1];
      rest
  }

  /** The lookup of the current brand: no saved list, found, not found, or
      a saved text that cannot be searched (the parse or `.find` throws). */
  datatype BrandLookup = NoSavedBrands | Found(brand: Record) | NotFound | LookupThrew

  function LookupBrand(saved: Option<StoredText>, brandId: string): BrandLookup {
    match saved
    case None => NoSavedBrands
    case Some(ObjectArray(records)) =>
      (match FindById(records, brandId)
       case Some(b) => Found(b)
       case None => NotFound)
    case Some(_) => LookupThrew
  }

  /** The server's answer to the passes request: an array, some other
      value, or a thrown error. */
  datatype PassesResponse = PassArray(passes: seq<Record>) | NotArray | RequestFailed

  /** Where loading leaves the page and the store, and whether the server was asked. */
  datatype Loaded = Loaded(brand: Option<Record>, passes: seq<Record>, error: string,
                           items: map<string, StoredText>, fetched: bool)

  /** The cache fallback: a cached list replaces the passes, no cache keeps
      them, an unreadable cache is a load failure. */
  function FromCache(cached: Option<StoredText>, passes: seq<Record>, error: string): (seq<Record>, string) {
    match cached
    case None => (passes, error)
    case Some(ObjectArray(ps)) => (ps, error)
    case Some(OtherJson) => (passes, error)
    case Some(Malformed) => (passes, LoadFailed)
  }

  /** The whole `loadData` run, from the store and the page as they were. */
  function Load(items: map<string, StoredText>, brandId: string, brand: Option<Record>, passes: seq<Record>,
                error: string, response: PassesResponse): Loaded
  {
    var saved := if BrandsKey in items then Some(items[BrandsKey]) else None;
    var lookup := LookupBrand(saved, brandId);
    if lookup == LookupThrew then Loaded(brand, passes, LoadFailed, items, false)
    else if lookup == NotFound then Loaded(brand, passes, BrandNotFound, items, false)
    else
      var brand' := if lookup.Found? then Some(lookup.brand) else brand;
      var key := PassesKey(brandId);
      match response
      case PassArray(ps) => Loaded(brand', ps, error, items[key := ObjectArray(ps)], true)
      case _ =>
        var cached := if key in items then Some(items[key]) else None;
        var (passes', error') := FromCache(cached, passes, error);
        Loaded(brand', passes', error', items, true)
  }

  /** A saved brand list without this brand stops the load: "Brand not
      found", the passes are not requested and nothing else changes. */
  lemma LoadStopsWithoutBrand(items: map<string, StoredText>, brandId: string, brand: Option<Record>,
                              passes: seq<Record>, error: string, response: PassesResponse)
    requires BrandsKey in items && items[BrandsKey].ObjectArray?
    requires forall i :: 0 <= i < |items[BrandsKey].items| ==> Get(items[BrandsKey].items[i], "id") != Str(brandId)
    ensures Load(items, brandId, brand, passes, error, response) == Loaded(brand, passes, BrandNotFound, items, false)
  {
  }

  /** A brand that is found (or no saved list at all) lets the passes load;
      an array answer becomes the list and is cached under the brand's key. */
  lemma LoadCachesServerArray(items: map<string, StoredText>, brandId: string, brand: Option<Record>,
                              passes: seq<Record>, error: string, ps: seq<Record>)
    requires BrandsKey !in items || LookupBrand(Some(items[BrandsKey]), brandId).Found?
    ensures var out := Load(items, brandId, brand, passes, error, PassArray(ps));
            && out.passes == ps && out.items == items[PassesKey(brandId) := ObjectArray(ps)]
            && out.error == error && out.fetched
  {
  }

  /** Without an array answer the cached list is used when there is one;
      without a cache the list stays as it was; the store is not written. */
  lemma LoadFallsBackToCache(items: map<string, StoredText>, brandId: string, brand: Option<Record>,
                             passes: seq<Record>, error: string, response: PassesResponse)
    requires BrandsKey !in items || LookupBrand(Some(items[BrandsKey]), brandId).Found?
    requires !response.PassArray?
    ensures var out := Load(items, brandId, brand, passes, error, response);
            && out.items == items && out.fetched
            && (PassesKey(brandId) in items && items[PassesKey(brandId)].ObjectArray? ==>
                  out.passes == items[PassesKey(brandId)].items && out.error == error)
            && (PassesKey(brandId) !in items ==> out.passes == passes && out.error == error)
            && (PassesKey(brandId) in items && items[PassesKey(brandId)] == Malformed ==>
                  out.passes == passes && out.error == LoadFailed)
  {
  }

  /** `pass.passId !== passId`. */
  function DeleteFilter(passId: string): Record -> bool {
    (p: Record) => Get(p, "passId") != Str(passId)
  }

  /** The list after deleting a pass. */
  function WithoutPass(passes: seq<Record>, passId: string): seq<Record> {
    ListOps.Filter(passes, DeleteFilter(passId))
  }

  /** Deletion drops every pass with that id and keeps the others, in order. */
  lemma WithoutPassSpec(passes: seq<Record>, passId: string, p: Record)
    ensures p in WithoutPass(passes, passId) <==> p in passes && Get(p, "passId") != Str(passId)
    ensures ListOps.Subsequence(WithoutPass(passes, passId), passes)
  {
    ListOps.FilterMembership(passes, DeleteFilter(passId), p);
    ListOps.FilterIsSubsequence(passes, DeleteFilter(passId));
  }

  /** `pass.status === 'active'`. */
  function IsActive(): Record -> bool {
    (p: Record) => Get(p, "status") == Str("active")
  }

  /** The "Active" figure: passes whose status is exactly "active". */
  function ActiveCount(passes: seq<Record>): (n: nat)
    ensures n <= |passes|
  {
    |ListOps.Filter(passes, IsActive())|
  }

  /** The label shown for a pass: its status, or "Active" when it has none. */
  function StatusLabel(p: Record): JsValue {
    if Truthy(Get(p, "status")) then Get(p, "status") else Str("Active")
  }

  /** A pass without a status is shown as Active but not counted as active. */
  lemma StatuslessPassNotCounted(p: Record)
    requires "status" !in Keys(p)
    ensures StatusLabel(p) == Str("Active")
    ensures ActiveCount([p]) == 0
  {
    GetAbsent(p, "status");
    assert [p][1..] == [];
  }

  /** Adding a pass raises the count by one exactly when its status is "active". */
  lemma ActiveCountAppend(passes: seq<Record>, p: Record)
    ensures ActiveCount([p] + passes) == ActiveCount(passes) + (if Get(p, "status") == Str("active") then 1 else 0)
  {
    assert ([p] + passes)[1..] == passes;
  }

  /** The pass manager page of one brand, over a shared store. */
  class PassManagerPage {
    const brandId: string
    const storage: Storage
    var brand: Option<Record>
    var passes: seq<Record>
    var loading: bool
    var error: string

    constructor(brandId: string, storage: Storage)
      ensures this.brandId == brandId && this.storage == storage
      ensures brand == None && passes == [] && loading && error == ""
    {
      this.brandId := brandId;
      this.storage := storage;
      brand := None;
      passes := [];
      loading := true;
      error := "";
    }

    /** `loadData`, with the server's answer as `response`; `fetched` says
        whether the request was made. */
    method LoadData(response: PassesResponse) returns (fetched: bool)
      modifies this, storage
      ensures var out := Load(old(storage.items), brandId, old(brand), old(passes), old(error), response);
              && brand == out.brand && passes == out.passes && error == out.error
              && storage.items == out.items && fetched == out.fetched
      ensures !loading
    {
      loading := true;
      fetched := false;
      var savedBrands := storage.GetItem(BrandsKey);
      if savedBrands.Some? {
        match savedBrands.value {
          case ObjectArray(records) =>
            var currentBrand := FindById(records, brandId);
            if currentBrand.Some? {
              brand := currentBrand;
            } else {
              error := BrandNotFound;
              loading := false;
              return;
            }
          case _ =>
            error := LoadFailed;
            loading := false;
            return;
        }
      }
      fetched := true;
      var key := PassesKey(brandId);
      if response.PassArray? {
        passes := response.passes;
        storage.SetItem(key, ObjectArray(response.passes));
      } else {
        var savedPasses := storage.GetItem(key);
        if savedPasses.Some? {
          match savedPasses.value {
            case ObjectArray(ps) => passes := ps;
            case OtherJson =>
            case Malformed => error := LoadFailed;
          }
        }
      }
      loading := false;
    }

    /** `refreshPasses`: only an array answer replaces the list and the
        cache; anything else changes nothing. */
    method RefreshPasses(response: PassesResponse)
      modifies this, storage
      ensures response.PassArray? ==>
                passes == response.passes && storage.items == old(storage.items)[PassesKey(brandId) := ObjectArray(response.passes)]
      ensures !response.PassArray? ==> passes == old(passes) && storage.items == old(storage.items)
      ensures brand == old(brand) && error == old(error) && loading == old(loading)
    {
      if response.PassArray? {
        passes := response.passes;
        storage.SetItem(PassesKey(brandId), ObjectArray(response.passes));
      }
    }

    /** `clearLocalStorage`: only this brand's cache entry goes. */
    method ClearLocalStorage()
      modifies storage
      ensures storage.items == old(storage.items) - {PassesKey(brandId)}
    {
      storage.RemoveItem(PassesKey(brandId));
    }

    /** `handleDeletePass` after the confirmation dialog; storage is untouched. */
    method HandleDeletePass(passId: string, confirmed: bool)
      modifies this
      ensures passes == if confirmed then WithoutPass(old(passes), passId) else old(passes)
      ensures brand == old(brand) && error == old(error) && loading == old(loading)
    {
      if confirmed {
        passes := ListOps.Filter(passes, DeleteFilter(passId));
      }
    }

    function ActivePasses(): (n: nat)
      reads this
      ensures n == ActiveCount(passes)
    {
      |ListOps.Filter(passes, IsActive())|
    }
  }
}
