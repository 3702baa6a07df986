/** Names for model layers, the keys of KV caches, precision maps and importance maps. */
module Layers {
  datatype LayerId = LayerId(index: int)
}
