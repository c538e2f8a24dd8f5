/** Option, used wherever the simulator stores a value that may be absent, and two facts
    about sequences. */
module Wrappers {
  datatype Option<+T> = None | Some(value: T) {
    function GetOr<U>(f: T -> U, default: U): U {
      if None? then default else f(value)
    }
  }

  lemma TailOfConcat<T>(s: seq<T>, t: seq<T>)
    requires s != []
    ensures (s + t)[0] == s[0] && (s + t)[1..] == s[1..] + t
  {
  }

  lemma ConcatAssociates<T>(a: seq<T>, b: seq<T>, c: seq<T>)
    ensures a + (b + c) == a + b + c
  {
  }
}
