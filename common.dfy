/** Small shared vocabulary: optional values and raw bytes. */
module Common {

  datatype Option<+T> = None | Some(value: T)

  newtype Byte = b: int | 0 <= b < 256

  type Bytes = seq<Byte>
}
