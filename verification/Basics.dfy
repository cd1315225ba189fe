/** Small types shared by the models. */
module Basics {

  datatype Option<+T> = None | Some(value: T)

  /** The outcome of a command: its value, or an error whose text is not modelled. */
  datatype Outcome<+T> = Done(value: T) | Failed

  newtype byte = b: int | 0 <= b < 256

  type Bytes = seq<byte>

  function Lookup<K, V>(m: map<K, V>, k: K): Option<V> {
    if k in m then Some(m[k]) else None
  }
}
