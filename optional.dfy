/** The usual optional-value wrapper. In the converter it stands for JavaScript's `null`
    results (no auth, no content type, no folder label). */
module Optional {

  datatype Option<+T> = None | Some(value: T)
}
