/** Small value helpers shared by the page models: an optional value and
    the JavaScript idiom `x || ''` on an optional string. */
module Common {

  datatype Option<+T> = None | Some(value: T)

  /** `x || ''` where `x` is a string that may be null or undefined:
      an absent value and the empty string both give the empty string. */
  function OrEmpty(x: Option<string>): (r: string)
    ensures x.Some? ==> r == x.value
    ensures x.None? ==> r == ""
  {
    match x
    case Some(s) => s
    case None => ""
  }
}
