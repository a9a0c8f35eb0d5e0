/** The solver option dictionaries handed to `simulate`: string keys, numeric
    values (integer options such as `thread_ct` are stored as whole reals). */
module SolverOptions {
  type Options = map<string, real>

  /** `zip(methods, opts)`: pairs up to the shorter of the two lists. */
  function Zip<A, B>(xs: seq<A>, ys: seq<B>): (r: seq<(A, B)>)
    ensures |r| == if |xs| <= |ys| then |xs| else |ys|
    ensures forall i :: 0 <= i < |r| ==> r[i] == (xs[i], ys[i])
  {
    if xs == [] || ys == [] then [] else [(xs[0], ys[0])] + Zip(xs[1..], ys[1..])
  }
}
