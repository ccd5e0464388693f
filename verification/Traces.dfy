/** Traces of one client among others: the steps it sends, whether or not they arrive, between the
    steps of others that it meets. */
module Traces {
  datatype Act<S> = Met(step: S) | Sent(step: S, arrived: bool)

  function MetIn<S>(trace: seq<Act<S>>): seq<S> {
    if trace == [] then [] else
      var last := |trace| - 1;
      MetIn(trace[..last]) + if trace[last].Met? then [trace[last].step] else []
  }

  function SentIn<S>(trace: seq<Act<S>>): seq<S> {
    if trace == [] then [] else
      var last := |trace| - 1;
      SentIn(trace[..last]) + if trace[last].Sent? then [trace[last].step] else []
  }

  /** The steps that reach the shared state, in their order. */
  function ArrivedIn<S>(trace: seq<Act<S>>): seq<S> {
    if trace == [] then [] else
      var last := |trace| - 1;
      ArrivedIn(trace[..last]) + if trace[last].Met? || trace[last].arrived then [trace[last].step] else []
  }

  ghost predicate IsTrace<S>(trace: seq<Act<S>>, met: seq<S>, sent: seq<S>) {
    MetIn(trace) == met && SentIn(trace) == sent
  }

  lemma TraceNext<S>(a: seq<Act<S>>, act: Act<S>)
    ensures MetIn(a + [act]) == MetIn(a) + if act.Met? then [act.step] else []
    ensures SentIn(a + [act]) == SentIn(a) + if act.Sent? then [act.step] else []
    ensures ArrivedIn(a + [act]) == ArrivedIn(a) + if act.Met? || act.arrived then [act.step] else []
  {
    assert (a + [act])[..|a|] == a;
  }

  lemma Regroup<T>(a: seq<T>, b: seq<T>, c: seq<T>)
    ensures a + (b + c) == a + b + c
  {
  }

  lemma {:induction false} TraceTwice<S>(a: seq<Act<S>>, b: seq<Act<S>>)
    ensures MetIn(a + b) == MetIn(a) + MetIn(b)
    ensures SentIn(a + b) == SentIn(a) + SentIn(b)
    ensures ArrivedIn(a + b) == ArrivedIn(a) + ArrivedIn(b)
  {
    if b == [] {
      assert a + b == a;
    } else {
      var b', act := b[..|b| - 1], b[|b| - 1];
      TraceTwice(a, b');
      TraceNext(a + b', act);
      TraceNext(b', act);
      hide MetIn;
      hide SentIn;
      hide ArrivedIn;
      Regroup(a, b', [act]);
      Regroup(MetIn(a), MetIn(b'), if act.Met? then [act.step] else []);
      Regroup(SentIn(a), SentIn(b'), if act.Sent? then [act.step] else []);
      Regroup(ArrivedIn(a), ArrivedIn(b'), if act.Met? || act.arrived then [act.step] else []);
      assert b == b' + [act];
    }
  }

  /** Nothing is sent. */
  lemma {:induction false} TraceOfMet<S>(met: seq<S>) returns (trace: seq<Act<S>>)
    ensures IsTrace(trace, met, []) && ArrivedIn(trace) == met
  {
    if met == [] {
      trace := [];
    } else {
      var before, step := met[..|met| - 1], met[|met| - 1];
      trace := TraceOfMet(before);
      TraceNext(trace, Met(step));
      trace := trace + [Met(step)];
      assert before + [step] == met;
    }
  }

  /** One step is sent, after those met. */
  lemma TraceOfSent<S>(met: seq<S>, step: S, arrived: bool) returns (trace: seq<Act<S>>)
    ensures IsTrace(trace, met, [step]) && ArrivedIn(trace) == met + if arrived then [step] else []
  {
    trace := TraceOfMet(met);
    TraceNext(trace, Sent(step, arrived));
    trace := trace + [Sent(step, arrived)];
  }

  // ---- What a client meets ------------------------------------------------------------------------------------

  /** Nobody else acts. */
  ghost predicate Quiet<S>(others: nat -> seq<S>) {
    forall i :: others(i) == []
  }

  /** The others' steps met from request `n` up to request `m`, `others(i)` being those before the `i`-th. */
  ghost function Between<S>(others: nat -> seq<S>, n: nat, m: nat): seq<S> {
    if m <= n then [] else Between(others, n, m - 1) + others(m - 1)
  }

  lemma BetweenOne<S>(others: nat -> seq<S>, n: nat)
    ensures Between(others, n, n + 1) == others(n)
  {
    assert Between(others, n, n) == [];
  }

  lemma {:induction false} BetweenTwice<S>(others: nat -> seq<S>, a: nat, b: nat, c: nat)
    requires a <= b <= c
    ensures Between(others, a, b) + Between(others, b, c) == Between(others, a, c)
  {
    if b < c {
      BetweenTwice(others, a, b, c - 1);
    }
  }

  lemma {:induction false} QuietBetween<S>(others: nat -> seq<S>, n: nat, m: nat)
    requires Quiet(others)
    ensures Between(others, n, m) == []
  {
    if n < m {
      QuietBetween(others, n, m - 1);
    }
  }
}
