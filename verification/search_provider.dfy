/**
 * The process-wide search provider slot of lib/search/provider.ts: set
 * (and overwrite) at start-up, read everywhere after. The provider's own
 * methods have no implementation here and are not modelled.
 */
module SearchProvider {
  import opened Outcomes

  /** A registered provider, known by the name it reports. */
  datatype Provider = Provider(name: string)

  /** `activeProvider`. */
  datatype Slot = Slot(active: Option<Provider>)

  const InitialSlot := Slot(None)

  const NotInitialized: string := "Search provider not initialized. Call setSearchProvider() at app startup."

  /** `setSearchProvider(p)`: the slot holds `p`, whatever it held before. */
  function SetSearchProvider(slot: Slot, p: Provider): (r: Slot)
    ensures r.active == Some(p)
  {
    Slot(Some(p))
  }

  datatype GetResult = Found(provider: Provider) | Threw(message: string)

  /** `getSearchProvider()`: the held provider, or the "not initialized" error. It never changes the slot. */
  function GetSearchProvider(slot: Slot): (r: GetResult)
    ensures r.Found? <==> slot.active.Some?
    ensures r.Found? ==> r.provider == slot.active.value
    ensures r.Threw? ==> r.message == NotInitialized
  {
    match slot.active
    case Some(p) => Found(p)
    case None => Threw(NotInitialized)
  }

  /** Reading before any set throws. */
  lemma GetBeforeSetThrows()
    ensures GetSearchProvider(InitialSlot) == Threw(NotInitialized)
  {
  }

  /** Reading after a set gives the provider set; a later set wins over an earlier one. */
  lemma GetAfterSet(slot: Slot, p: Provider, q: Provider)
    ensures GetSearchProvider(SetSearchProvider(slot, p)) == Found(p)
    ensures SetSearchProvider(SetSearchProvider(slot, p), q) == SetSearchProvider(slot, q)
  {
  }
}
