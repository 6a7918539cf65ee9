/** Pieces of runs of the protocol in which one actor is not interrupted. */
module ProtocolRuns {
  import opened Wrappers
  import opened Protocol

  /** The result of partial steps, one after the other. */
  function Iterate<S, T>(s: S, steps: seq<T>, next: (S, T) -> Option<S>): Option<S>
    decreases |steps|
  {
    if steps == [] then Some(s)
    else
      match next(s, steps[0])
      case None => None
      case Some(t) => Iterate(t, steps[1..], next)
  }

  lemma {:induction false} IterateBoth<S, T>(s: S, xs: seq<T>, ys: seq<T>, next: (S, T) -> Option<S>)
    requires Iterate(s, xs, next).Some?
    ensures Iterate(s, xs + ys, next) == Iterate(Iterate(s, xs, next).value, ys, next)
    decreases |xs|
  {
    if xs == [] {
      assert xs + ys == ys;
    } else {
      IterateBoth(next(s, xs[0]).value, xs[1..], ys, next);
      assert (xs + ys)[1..] == xs[1..] + ys;
    }
  }

  function Next(s: State, step: Step): Option<State> {
    if Enabled(s, step) then Some(Apply(s, step)) else None
  }

  /** The state after some steps, if each is enabled in its turn. */
  function After(s: State, steps: seq<Step>): Option<State> { Iterate(s, steps, Next) }

  /** The steps lead from one state to another and all belong to one actor. */
  ghost predicate Leads(s: State, steps: seq<Step>, t: State, own: Step -> bool) {
    After(s, steps) == Some(t) && forall step :: step in steps ==> own(step)
  }

  lemma LeadsOne(s: State, step: Step, t: State, own: Step -> bool)
    requires Enabled(s, step) && Apply(s, step) == t && own(step)
    ensures Leads(s, [step], t, own)
  {
    assert After(t, [step][1..]) == Some(t);
  }

  lemma LeadsOn(s: State, xs: seq<Step>, t: State, ys: seq<Step>, u: State, own: Step -> bool)
    requires Leads(s, xs, t, own) && Leads(t, ys, u, own)
    ensures Leads(s, xs + ys, u, own)
  {
    IterateBoth(s, xs, ys, Next);
  }

  /** One more step in front. */
  lemma Then(s: State, step: Step, t: State, rest: seq<Step>, u: State, own: Step -> bool)
    requires Enabled(s, step) && Apply(s, step) == t && own(step) && Leads(t, rest, u, own)
    ensures Leads(s, [step] + rest, u, own)
  {
    LeadsOne(s, step, t, own);
    LeadsOn(s, [step], t, rest, u, own);
  }
}
