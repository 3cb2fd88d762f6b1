/**
Keys: a predicate written as a quantifier over the keys of a layer is not unfolded where
that layer's key is not mentioned.  Every key fits.
*/
module Keys {
  datatype Layer = SpoolKey | KeptKey | ScanKey | MetricsKey | TableKey | RunKey | StandKey | LineKey | GivenKey | GroupKey | TurnKey

  predicate Look(layer: Layer, k: nat) { true }
}
