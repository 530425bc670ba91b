/** Small datatypes shared by every script model: optional values, the data
    files as the scripts find them, the exceptions that stop a script before
    it writes, and a result type carrying them. */
module Common {

  datatype Option<+T> = None | Some(value: T)

  /** A JSON field that may be missing from a record, present with the value
      null (Python None), or present with a value. */
  datatype Slot<+T> = Absent | Null | Present(value: T)

  /** A JSON data file holding a list of records: missing, or present with
      its decoded contents (the decoding itself is not modelled). */
  datatype JsonFile<+T> = Missing | Loaded(items: seq<T>)

  /** The exceptions raised before any file is written.
      FileNotFound: `open(path, 'r')` on a missing file.
      EmptyDataset: `max()` over an empty list raises ValueError.
      InvalidId: `int(id)` raises ValueError on a non-numeric ID. */
  datatype Failure = FileNotFound | EmptyDataset | InvalidId(id: string)

  datatype Result<+T> = Ok(value: T) | Err(error: Failure)
}
