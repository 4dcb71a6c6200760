/** What the two endpoints (server and client) share: the membership test behind their
    guarded state transitions, and the description of what other code does to an endpoint
    between two of its poll loop's checkpoints. */
module Endpoint {

  /** The loop of state_transition / assert_valid_state: is the current state one of the
      allowed ones? */
  method IsAllowed<S(==)>(state: S, allowed: seq<S>) returns (ok: bool)
    ensures ok <==> state in allowed
  {
    ok := false;
    var i := 0;
    while i < |allowed|
      invariant 0 <= i <= |allowed|
      invariant !ok <==> state !in allowed[..i]
    {
      if state == allowed[i] {
        ok := true;
        assert allowed[i] in allowed[..i + 1];
        break;
      }
      i := i + 1;
    }
    assert ok || allowed[..i] == allowed;
  }

  /** What happens, before the checkpoint of one ready entry, in code the poll loop does not
      control: a user hook called by the previous entry, or the other thread.
      Shutdown is a call to close() (server) or disconnect() (client); DestructorBegins is
      the destructor's forced write of the DESTRUCTING state. */
  datatype Interference = Quiet | Shutdown | DestructorBegins

  /** The interference before entry `k`; none beyond the end of the script. */
  function StepAt(steps: seq<Interference>, k: nat): Interference {
    if k < |steps| then steps[k] else Quiet
  }

  /** The sequences of `xss`, one after the other: the user calls of several hooks as one
      trace. */
  function Concat<T>(xss: seq<seq<T>>): seq<T>
    decreases |xss|
  {
    if xss == [] then [] else Concat(xss[..|xss| - 1]) + xss[|xss| - 1]
  }

  /** Appending one more sequence appends its elements. */
  lemma ConcatAppend<T>(xss: seq<seq<T>>, xs: seq<T>)
    ensures Concat(xss + [xs]) == Concat(xss) + xs
  {
    assert (xss + [xs])[..|xss|] == xss;
  }
}
