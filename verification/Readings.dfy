/** What a metric backend can answer: a real number or one of the three floating-point
    values that are none. */
module Readings {

  datatype Reading = NaN | PosInf | NegInf | Fin(r: real)
}
