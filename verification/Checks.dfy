/** A list of conditions checked in order, and the error of the first that fails. */
module Checks {
  import opened Schema

  datatype Check<E> = Check(holds: bool, error: E)

  function FirstFailing<E>(checks: seq<Check<E>>): Option<E> {
    if checks == [] then None
    else if !checks[0].holds then Some(checks[0].error)
    else FirstFailing(checks[1..])
  }

  lemma {:induction false} PassesIffAllHold<E>(checks: seq<Check<E>>)
    ensures FirstFailing(checks) == None <==> forall k | 0 <= k < |checks| :: checks[k].holds
  {
    if checks != [] {
      PassesIffAllHold(checks[1..]);
      assert forall k | 1 <= k < |checks| :: checks[k] == checks[1..][k - 1];
    }
  }

  /** Checking `first` before `rest`. */
  lemma Peel<E>(first: Check<E>, rest: seq<Check<E>>)
    ensures FirstFailing([first] + rest) == if !first.holds then Some(first.error) else FirstFailing(rest)
  {
    assert ([first] + rest)[1..] == rest;
  }

  lemma ThreeChecks<E>(a: Check<E>, b: Check<E>, c: Check<E>)
    ensures FirstFailing([a, b, c])
         == if !a.holds then Some(a.error) else if !b.holds then Some(b.error) else if !c.holds then Some(c.error) else None
  {
    Peel(a, [b, c]);
    Peel(b, [c]);
    Peel(c, []);
    assert [a] + [b, c] == [a, b, c] && [b] + [c] == [b, c] && [c] + [] == [c];
  }

  lemma FiveChecks<E>(a: Check<E>, b: Check<E>, c: Check<E>, d: Check<E>, e: Check<E>)
    ensures FirstFailing([a, b, c, d, e])
         == if !a.holds then Some(a.error) else if !b.holds then Some(b.error) else if !c.holds then Some(c.error)
            else if !d.holds then Some(d.error) else if !e.holds then Some(e.error) else None
  {
    Peel(a, [b, c, d, e]);
    Peel(b, [c, d, e]);
    Peel(c, [d, e]);
    Peel(d, [e]);
    Peel(e, []);
    assert [a] + [b, c, d, e] == [a, b, c, d, e] && [b] + [c, d, e] == [b, c, d, e];
    assert [c] + [d, e] == [c, d, e] && [d] + [e] == [d, e] && [e] + [] == [e];
  }

  lemma TenChecks<E>(a: Check<E>, b: Check<E>, c: Check<E>, d: Check<E>, e: Check<E>, f: Check<E>, g: Check<E>, h: Check<E>, i: Check<E>, j: Check<E>)
    ensures FirstFailing([a, b, c, d, e, f, g, h, i, j])
         == if !a.holds then Some(a.error) else if !b.holds then Some(b.error) else if !c.holds then Some(c.error)
            else if !d.holds then Some(d.error) else if !e.holds then Some(e.error) else if !f.holds then Some(f.error)
            else if !g.holds then Some(g.error) else if !h.holds then Some(h.error) else if !i.holds then Some(i.error)
            else if !j.holds then Some(j.error) else None
  {
    Peel(a, [b, c, d, e, f, g, h, i, j]);
    Peel(b, [c, d, e, f, g, h, i, j]);
    Peel(c, [d, e, f, g, h, i, j]);
    Peel(d, [e, f, g, h, i, j]);
    Peel(e, [f, g, h, i, j]);
    Peel(f, [g, h, i, j]);
    Peel(g, [h, i, j]);
    Peel(h, [i, j]);
    Peel(i, [j]);
    Peel(j, []);
    assert [a] + [b, c, d, e, f, g, h, i, j] == [a, b, c, d, e, f, g, h, i, j];
    assert [b] + [c, d, e, f, g, h, i, j] == [b, c, d, e, f, g, h, i, j];
    assert [c] + [d, e, f, g, h, i, j] == [c, d, e, f, g, h, i, j];
    assert [d] + [e, f, g, h, i, j] == [d, e, f, g, h, i, j];
    assert [e] + [f, g, h, i, j] == [e, f, g, h, i, j];
    assert [f] + [g, h, i, j] == [f, g, h, i, j];
    assert [g] + [h, i, j] == [g, h, i, j];
    assert [h] + [i, j] == [h, i, j] && [i] + [j] == [i, j] && [j] + [] == [j];
  }
}
