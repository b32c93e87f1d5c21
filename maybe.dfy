/** An optional value. It stands for a TypeScript property or variable that
    may be `undefined` (or `null`): `None` is the absent value. */
module Maybe {

  datatype Option<+T> = None | Some(value: T) {

    /** The `??` operator: the value when present, else the fallback. */
    function GetOr(fallback: T): (r: T)
      ensures Some? ==> r == value
      ensures None? ==> r == fallback
    {
      match this
      case Some(v) => v
      case None => fallback
    }
  }
}
