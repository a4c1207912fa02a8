/** Value types shared by the input stream, the message framer and the
    stream reader: bytes, the errno-style status codes the reader returns,
    and the usual Option/Result wrappers. */
module IpcTypes {

  /** One octet of the wire format. */
  newtype byte = x: int | 0 <= x < 256

  /** Status codes returned by the reader's operations. `OK` is the
      library's success code; the others are the errno values it uses. */
  datatype Code = OK | EINVAL | ENOTSUP | ENODATA

  datatype Option<+T> = None | Some(value: T)

  /** The result of the external metadata decoder: a value or an error message. */
  datatype Result<+T> = Ok(value: T) | Err(message: string)

  function Min(a: nat, b: nat): nat
  {
    if a <= b then a else b
  }
}
