/** The storage-duration policy: how many Walrus epochs the relayer stores a blob for. */
module StoreEpochs {
  import opened Wrappers

  const WALRUS_MIN_EPOCHS := 1

  datatype Source = Committed | LegacyDefault

  datatype Resolution = Accepted(epochs: int, source: Source) | Rejected(reason: string)

  function Max(a: int, b: int): int {
    if a < b then b else a
  }

  function Min(a: int, b: int): int {
    if a < b then a else b
  }

  function ResolveStoreEpochs(committed: Option<int>, defaultEpochs: int, maxEpochs: int): Resolution {
    match committed
    case None =>
      if defaultEpochs > maxEpochs then Rejected("legacy default above the max") else Accepted(defaultEpochs, LegacyDefault)
    case Some(epochs) =>
      if epochs < 0 then Rejected("invalid committed storage epochs")
      else if epochs > maxEpochs then Rejected("committed storage epochs above the max")
      else Accepted(Max(epochs, WALRUS_MIN_EPOCHS), Committed)
  }

  /** WalrusService.resolveStoreEpochs: the configured cap first, then the cap read live from Walrus. */
  function ResolveWithLiveCap(committed: Option<int>, defaultEpochs: int, configMax: int, walrusMax: int): Resolution {
    var byConfig := ResolveStoreEpochs(committed, defaultEpochs, configMax);
    if byConfig.Rejected? then byConfig else ResolveStoreEpochs(committed, defaultEpochs, Min(configMax, walrusMax))
  }

  /** A commitment is stored in full or refused: never shortened, never past either cap. */
  lemma NeverShortened(committed: int, defaultEpochs: int, configMax: int, walrusMax: int)
    ensures ResolveWithLiveCap(Some(committed), defaultEpochs, configMax, walrusMax).Accepted?
       <==> 0 <= committed <= Min(configMax, walrusMax)
    ensures var r := ResolveWithLiveCap(Some(committed), defaultEpochs, configMax, walrusMax);
            r.Accepted? ==> (if committed == 0 then r.epochs == 1 else r.epochs == committed)
  {
  }

  /** Without a commitment the configured default is stored, or refused above either cap. */
  lemma DefaultForLegacyRows(defaultEpochs: int, configMax: int, walrusMax: int)
    ensures var r := ResolveWithLiveCap(None, defaultEpochs, configMax, walrusMax);
            && (r.Accepted? <==> defaultEpochs <= configMax && defaultEpochs <= walrusMax)
            && (r.Accepted? ==> r.epochs == defaultEpochs)
  {
  }
}
