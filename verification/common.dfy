/** Small datatypes shared by the other modules. */
module Common {

  datatype Option<+T> = None | Some(value: T)

  datatype Result<+T, +E> = Ok(value: T) | Err(error: E)

  lemma {:induction false} Unused(ts: set<nat>) returns (t: nat)
    ensures t !in ts && forall u <- ts :: u < t
  {
    if ts == {} {
      t := 0;
    } else {
      var u :| u in ts;
      var v := Unused(ts - {u});
      t := if u < v then v else u + 1;
      forall w | w in ts ensures w < t {
        if w != u { assert w in ts - {u}; }
      }
    }
  }
}
