/** The brand dashboard: the brand list kept in browser storage, the
    create-brand form and brand deletion. */
module Dashboard {
  import opened Wrappers
  import opened Text
  import ListOps

  const NameRequired := "Brand name is required"

  datatype Brand = Brand(id: string, name: string, description: string, createdAt: string, passCount: nat)

  /** The create-brand inputs. */
  datatype NewBrand = NewBrand(name: string, description: string)

  const EmptyNewBrand: NewBrand := NewBrand("", "")

  /** The page state; `stored` is what the `brands` storage key holds. */
  datatype State = State(brands: seq<Brand>, stored: seq<Brand>, showCreateBrand: bool,
                         newBrand: NewBrand, loading: bool, error: string)

  /** The effect that runs whenever the list changes rewrites the stored
      copy from it. */
  function Persist(s: State): (r: State)
    ensures r.stored == r.brands && r.brands == s.brands
  {
    s.(stored := s.brands)
  }

  predicate Persisted(s: State) {
    s.stored == s.brands
  }

  /** Mounting: the saved list when the key holds one, otherwise empty;
      either way the list is then written back. */
  function Mount(saved: Option<seq<Brand>>): (s: State)
    ensures Persisted(s)
    ensures s.brands == (if saved.Some? then saved.value else [])
    ensures !s.showCreateBrand && s.newBrand == EmptyNewBrand && s.error == ""
  {
    var brands := if saved.Some? then saved.value else [];
    Persist(State(brands, [], false, EmptyNewBrand, false, ""))
  }

  /** The brand created from the inputs at time `now` (`createdAt` is the
      clock's ISO text): trimmed texts, no passes yet. */
  function MakeBrand(input: NewBrand, now: nat, createdAt: string): (b: Brand)
    ensures b.name == Trim(input.name) && b.description == Trim(input.description)
    ensures b.passCount == 0 && b.createdAt == createdAt
    ensures StartsWith(b.id, "brand-") && AllDigits(b.id[6..]) && ParseDecimal(b.id[6..]) == now
  {
    var id := "brand-" + NatToString(now);
    assert id[6..] == NatToString(now);
    ParseNatToString(now);
    Brand(id, Trim(input.name), Trim(input.description), createdAt, 0)
  }

  /** Creating a brand, including the simulated delay: a name that trims to
      nothing sets the error and leaves the list alone; otherwise the new
      brand is appended, the inputs are cleared and the form closes. */
  function HandleCreateBrand(s: State, now: nat, createdAt: string): (r: State)
    ensures IsBlank(s.newBrand.name) ==> r == s.(error := NameRequired)
    ensures !IsBlank(s.newBrand.name) ==>
              r.brands == s.brands + [MakeBrand(s.newBrand, now, createdAt)] && Persisted(r) &&
              r.newBrand == EmptyNewBrand && !r.showCreateBrand && !r.loading && r.error == ""
  {
    BlankIffTrimEmpty(s.newBrand.name);
    if Trim(s.newBrand.name) == "" then s.(error := NameRequired)
    else
      var brand := MakeBrand(s.newBrand, now, createdAt);
      Persist(s.(brands := s.brands + [brand], newBrand := EmptyNewBrand, showCreateBrand := false,
                 loading := false, error := ""))
  }

  /** Creation appends: the existing brands keep their positions and values,
      and the list grows by exactly one, whose name is not blank. */
  lemma CreateAppends(s: State, now: nat, createdAt: string)
    requires !IsBlank(s.newBrand.name)
    ensures var r := HandleCreateBrand(s, now, createdAt);
            && |r.brands| == |s.brands| + 1
            && r.brands[..|s.brands|] == s.brands
            && r.brands[|s.brands|].name != "" && !IsBlank(r.brands[|s.brands|].name)
  {
    var name := Trim(s.newBrand.name);
    BlankIffTrimEmpty(s.newBrand.name);
    TrimIdempotent(s.newBrand.name);
    BlankIffTrimEmpty(name);
  }

  /** Deleting after the confirmation dialog: every brand with that id goes. */
  function HandleDeleteBrand(s: State, brandId: string, confirmed: bool): (r: State)
    ensures !confirmed ==> r == s
    ensures confirmed ==> r.brands == ListOps.Filter(s.brands, (b: Brand) => b.id != brandId) && Persisted(r)
  {
    if confirmed then Persist(s.(brands := ListOps.Filter(s.brands, (b: Brand) => b.id != brandId)))
    else s
  }

  /** After a confirmed delete no brand has that id, every other brand is
      still there, and the survivors keep their order. */
  lemma DeleteRemovesOnlyThatId(s: State, brandId: string, b: Brand)
    ensures var r := HandleDeleteBrand(s, brandId, true);
            && (b in r.brands <==> b in s.brands && b.id != brandId)
            && ListOps.Subsequence(r.brands, s.brands)
  {
    var keep := (x: Brand) => x.id != brandId;
    ListOps.FilterMembership(s.brands, keep, b);
    ListOps.FilterIsSubsequence(s.brands, keep);
  }

  /** Every handler leaves the stored copy equal to the list. */
  lemma HandlersKeepStoragePersisted(s: State, now: nat, createdAt: string, brandId: string, confirmed: bool)
    requires Persisted(s)
    ensures Persisted(HandleCreateBrand(s, now, createdAt))
    ensures Persisted(HandleDeleteBrand(s, brandId, confirmed))
  {
  }
}
