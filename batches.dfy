// The `for (let i = 0; i < orders.length; i += BATCH)` loop of the scripts: orders
// are taken in consecutive slices of `batch` and each order is handled on its own,
// threading the access token that a refresh may replace. The concurrency inside a
// slice (`Promise.all`) is not modelled; its orders are handled in sequence.
module Batches {

  /** Every order in sequence from `token`: the outcomes and the final token. */
  function RunAll<R, O>(rows: seq<R>, token: string, step: (R, string) -> (O, string)): (r: (seq<O>, string))
    ensures |r.0| == |rows|
  {
    if rows == [] then ([], token)
    else
      var st := step(rows[0], token);
      var rest := RunAll(rows[1..], st.1, step);
      ([st.0] + rest.0, rest.1)
  }

  /** Each outcome is the step applied to its own order, with the token left by the
      orders before it. */
  lemma {:induction false} RunAllEach<R, O>(rows: seq<R>, token: string, step: (R, string) -> (O, string), k: nat)
    requires k < |rows|
    ensures RunAll(rows, token, step).0[k] == step(rows[k], RunAll(rows[..k], token, step).1).0
  {
    if k > 0 {
      var st := step(rows[0], token);
      RunAllEach(rows[1..], st.1, step, k - 1);
      assert rows[1..][k - 1] == rows[k];
      assert rows[..k][1..] == rows[1..][..k - 1];
    }
  }

  /** With a step that ignores and keeps the token, every outcome depends on its own
      order only. */
  lemma {:induction false} RunAllIndependent<R, O>(rows: seq<R>, token: string, step: (R, string) -> (O, string), k: nat)
    requires forall r, t :: step(r, t) == (step(r, token).0, t)
    requires k < |rows|
    ensures RunAll(rows, token, step).0[k] == step(rows[k], token).0
  {
    if k > 0 {
      RunAllIndependent(rows[1..], token, step, k - 1);
      assert rows[1..][k - 1] == rows[k];
    }
  }

  lemma RunAllFrom<R, O>(rows: seq<R>, j: nat, token: string, step: (R, string) -> (O, string))
    requires j < |rows|
    ensures var st := step(rows[j], token);
      var rest := RunAll(rows[j + 1..], st.1, step);
      RunAll(rows[j..], token, step) == ([st.0] + rest.0, rest.1)
  {
    assert rows[j..][1..] == rows[j + 1..];
  }

  /** One more order handled keeps the loop's relation to the whole run. */
  lemma KeepsRun<R, O>(rows: seq<R>, j: nat, token: string, step: (R, string) -> (O, string),
                       whole: (seq<O>, string), outs: seq<O>)
    requires j < |rows|
    requires outs + RunAll(rows[j..], token, step).0 == whole.0
    requires RunAll(rows[j..], token, step).1 == whole.1
    ensures var st := step(rows[j], token);
      && (outs + [st.0]) + RunAll(rows[j + 1..], st.1, step).0 == whole.0
      && RunAll(rows[j + 1..], st.1, step).1 == whole.1
  {
    RunAllFrom(rows, j, token, step);
  }

  /** The orders `rows[i..end]` of one slice, continuing from the outcomes so far. */
  method RunSlice<R, O>(rows: seq<R>, i: nat, end: nat, step: (R, string) -> (O, string),
                        ghost whole: (seq<O>, string), outs0: seq<O>, token0: string)
    returns (outs: seq<O>, token: string)
    requires i <= end <= |rows|
    requires outs0 + RunAll(rows[i..], token0, step).0 == whole.0
    requires RunAll(rows[i..], token0, step).1 == whole.1
    ensures outs + RunAll(rows[end..], token, step).0 == whole.0
    ensures RunAll(rows[end..], token, step).1 == whole.1
  {
    outs, token := outs0, token0;
    var j := i;
    while j < end
      invariant i <= j <= end
      invariant outs + RunAll(rows[j..], token, step).0 == whole.0
      invariant RunAll(rows[j..], token, step).1 == whole.1
    {
      var st := step(rows[j], token);
      KeepsRun(rows, j, token, step, whole, outs);
      outs := outs + [st.0];
      token := st.1;
      j := j + 1;
    }
  }

  /** The batched loop: slices of `batch` orders (at least one), in order. */
  method RunBatches<R, O>(rows: seq<R>, batch: nat, token0: string, step: (R, string) -> (O, string))
    returns (outs: seq<O>, token: string)
    requires batch > 0
    ensures (outs, token) == RunAll(rows, token0, step)
  {
    outs, token := [], token0;
    ghost var whole := RunAll(rows, token0, step);
    var i := 0;
    while i < |rows|
      invariant i <= |rows|
      invariant outs + RunAll(rows[i..], token, step).0 == whole.0
      invariant RunAll(rows[i..], token, step).1 == whole.1
    {
      var end := if i + batch < |rows| then i + batch else |rows|;
      outs, token := RunSlice(rows, i, end, step, whole, outs, token);
      i := end;
    }
    assert rows[|rows|..] == [];
    assert outs == whole.0 && token == whole.1;
  }
}
