/** Option, the shape every nullable value of the front-end takes in this model
    (a missing viewer, a missing profile join, an absent theme). */
module Wrappers {

  datatype Option<+T> = None | Some(value: T)
  {
    function GetOr(default: T): T
    {
      match this
      case Some(v) => v
      case None => default
    }
  }
}
