/** What the other modules share. */
module Wrappers {
  datatype Option<T> = None | Some(value: T)

  /** Map and set iteration order is unspecified: any remaining element may come next. */
  method Pick<T>(s: set<T>) returns (x: T)
    requires s != {}
    ensures x in s
  {
    x :| x in s;
  }

  lemma {:induction false} Assoc<T>(a: seq<T>, b: seq<T>, c: seq<T>)
    ensures (a + b) + c == a + (b + c)
  {
  }
}
