/** What the other modules share: optional values and the two laws of sequences the solver has to be told. */
module Basics {

  datatype Option<+T> = None | Some(value: T)

  lemma Assoc<T>(a: seq<T>, b: seq<T>, c: seq<T>)
    ensures (a + b) + c == a + (b + c)
  {
  }

  lemma Cut<T>(s: seq<T>, from: nat, at: nat)
    requires from <= at <= |s|
    ensures s[from..] == s[from..at] + s[at..]
  {
  }
}
