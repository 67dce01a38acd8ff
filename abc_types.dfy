/** Value types shared by the object-writer model: bytes, 64-bit words,
    object headers and the error kinds the writer raises. */
module AbcTypes {

  /** An unsigned 8-bit value (`Util::uint8_t`). */
  type Byte = b: int | 0 <= b < 0x100

  /** An unsigned 64-bit value (`Util::uint64_t`). */
  type Word = w: int | 0 <= w < 0x1_0000_0000_0000_0000

  /** Object metadata: a map of key/value annotations. */
  type MetaData = map<string, string>

  /** An immutable object header: the child's own name, its full path
      inside the archive and a copy of its metadata. */
  datatype ObjectHeader = ObjectHeader(name: string, fullName: string, metaData: MetaData)

  /** The exceptions the object writer throws, one constructor per throw site. */
  datatype Error =
    | DuplicateName(name: string)     // a sibling already has this name
    | EmptyName                       // the child was given no name
    | IllegalName(name: string)       // the name contains the separator '/'
    | IndexOutOfRange(index: nat)     // header index past the last child
    | InvalidHashIndex(index: nat)    // hash slot index past the last child

  datatype Option<+T> = None | Some(value: T)

  datatype Result<+T, +E> = Success(value: T) | Failure(error: E)

  datatype Outcome<+E> = Pass | Fail(error: E)
}
