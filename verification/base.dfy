/** Small building blocks shared by the link-preview model: bytes, optional
    values, results with an error, Go's strings.HasSuffix and the fields of
    Go's net/url.URL that the pipeline compares. */
module Base {

  /** One byte of an HTTP response body. */
  newtype byte = x: int | 0 <= x < 256

  datatype Option<+T> = None | Some(value: T)

  /** A Go (value, err) pair: exactly one of the two is meaningful. */
  datatype Result<+T, +E> = Ok(value: T) | Err(error: E)

  /** strings.HasSuffix(s, suffix). */
  predicate HasSuffix(s: string, suffix: string) {
    |suffix| <= |s| && s[|s| - |suffix|..] == suffix
  }

  /** The fields of a parsed net/url.URL. `user` stands for the *Userinfo
      pointer (None is nil). `host` keeps any ":port", as Go's URL.Host does. */
  datatype Url = Url(
    scheme: string,
    opaquePart: string,
    user: Option<string>,
    host: string,
    path: string,
    rawPath: string,
    forceQuery: bool,
    rawQuery: string,
    fragment: string)

  /** The zero value url.URL{}. */
  const ZeroUrl: Url := Url("", "", None, "", "", "", false, "", "")
}
