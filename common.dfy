/** Values shared by every component of the client: optional values and the
    toast notices a handler shows. */
module Common {

  /** A value that may be missing: `null` or `undefined` in the client. */
  datatype Option<+T> = None | Some(value: T)

  /** The toast a handler shows, if any. `ErrorNotice` is the error or
      "destructive" variant; `SuccessNotice` the plain one. */
  datatype Notice = NoNotice | SuccessNotice(title: string) | ErrorNotice(title: string)

  /** The part of a browser `File` the forms look at: its name and its size
      in bytes. */
  datatype File = File(name: string, size: nat)
}
