/** Optional values: the model's reading of a nullable column or a Python result that may be None. */
module Wrappers {

  datatype Option<+T> = None | Some(value: T) {

    /** The value when present, otherwise the given default. */
    function GetOr(default: T): T {
      match this
      case Some(v) => v
      case None => default
    }
  }

  /** Python truthiness of a nullable number: present and non-zero. */
  predicate Truthy(o: Option<real>) {
    o.Some? && o.value != 0.0
  }

  /** Python truthiness of a nullable integer: present and non-zero. */
  predicate TruthyInt(o: Option<int>) {
    o.Some? && o.value != 0
  }

  /** `float(x or 0)`: a falsy nullable number reads as zero. */
  function OrZero(o: Option<real>): (r: real)
    ensures Truthy(o) ==> r == o.value
    ensures !Truthy(o) ==> r == 0.0
  {
    if o.Some? then o.value else 0.0
  }

  /** `float(x) if x else None`: a falsy value is reported as missing. */
  function Present(o: Option<real>): (r: Option<real>)
    ensures r.Some? <==> Truthy(o)
    ensures r.Some? ==> r == o
  {
    if Truthy(o) then o else None
  }
}
