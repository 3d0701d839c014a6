/** Constants of the one audited model. */
module ModelTarget {
  const NUM_LAYERS: nat := 24
  const MAX_CONTEXT_TOKENS: nat := 131072
}
