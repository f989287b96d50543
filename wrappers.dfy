/** The usual optional-value datatype: stands for JavaScript's `null`/`undefined` versus a value. */
module Wrappers {

  datatype Option<+T> = None | Some(value: T) {

    /** Returns the value held in Some, or `default` when None. */
    function GetOr(default: T): T {
      match this
      case Some(v) => v
      case None() => default
    }
  }

  /** The values of the options that are present, in order. */
  function Values<T>(rs: seq<Option<T>>): (vs: seq<T>)
    ensures |vs| <= |rs|
  {
    if rs == [] then [] else Values(rs[..|rs| - 1]) + (if rs[|rs| - 1].Some? then [rs[|rs| - 1].value] else [])
  }

  /** Each value comes from some present option, and every present option contributes its value. */
  lemma {:induction false} ValuesSpec<T>(rs: seq<Option<T>>)
    ensures forall v :: v in Values(rs) ==> exists j :: 0 <= j < |rs| && rs[j] == Some(v)
    ensures forall j :: 0 <= j < |rs| && rs[j].Some? ==> rs[j].value in Values(rs)
  {
    if rs != [] {
      var init := rs[..|rs| - 1];
      ValuesSpec(init);
      forall v | v in Values(rs) ensures exists j :: 0 <= j < |rs| && rs[j] == Some(v) {
        if v in Values(init) {
          var j :| 0 <= j < |init| && init[j] == Some(v);
          assert rs[j] == Some(v);
        }
      }
      forall j | 0 <= j < |rs| && rs[j].Some? ensures rs[j].value in Values(rs) {
        if j < |init| {
          assert init[j] == rs[j];
        }
      }
    }
  }
}
