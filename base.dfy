/** Option and Result, the two wrapper types the pipeline engine passes around. */
module Base {

  /** Rust's `Option<T>`. */
  datatype Option<+T> = None | Some(value: T) {
    /** `Option::unwrap_or`. */
    function UnwrapOr(default: T): T {
      match this
      case Some(v) => v
      case None => default
    }
  }

  /** A fallible computation: DataFusion's `Result<T>`, whose error is carried as its message. */
  datatype Result<+T> = Ok(value: T) | Err(error: string)

  /** Rust's `format!(r#""{v}""#)`: the text wrapped in double quotes. */
  function Quote(s: string): (q: string)
    ensures |q| == |s| + 2 && q[0] == '"' && q[|q| - 1] == '"' && q[1..|q| - 1] == s
  {
    "\"" + s + "\""
  }

  /** Quoting never merges two names, so quoted keys stay distinct. */
  lemma QuoteInjective(a: string, b: string)
    requires Quote(a) == Quote(b)
    ensures a == b
  {
    assert a == Quote(a)[1..|Quote(a)| - 1];
  }
}
