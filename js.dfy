/** JavaScript numbers, as the frontend receives and produces them. */
module Js {
  /** A JavaScript `number`: a finite value, `NaN`, or one of the infinities. */
  datatype JsNum = Finite(r: real) | NaN | PosInf | NegInf
}
