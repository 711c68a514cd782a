/** Option and Result values for the lookups and reads that can fail. */
module Outcomes {

  datatype Option<T> = None | Some(value: T)

  /** The outcome of an operation that Python would end with an exception;
      Err carries the exception's message. */
  datatype Result<T> = Ok(value: T) | Err(msg: string)

  /** The outputs of the items in order, each item's from step; the first
      error ends the loop. */
  function Gather<T, U>(step: T -> Result<seq<U>>, items: seq<T>): Result<seq<U>>
  {
    if items == [] then Ok([])
    else
      match Gather(step, items[..|items| - 1])
      case Err(e) => Err(e)
      case Ok(front) =>
        match step(items[|items| - 1])
        case Err(e) => Err(e)
        case Ok(more) => Ok(front + more)
  }

  /** The loop fails exactly when one of its steps does. */
  lemma {:induction false} GatherOk<T, U>(step: T -> Result<seq<U>>, items: seq<T>)
    ensures Gather(step, items).Ok? <==> forall i :: 0 <= i < |items| ==> step(items[i]).Ok?
    decreases |items|
  {
    if items != [] {
      var front := items[..|items| - 1];
      GatherOk(step, front);
      if Gather(step, items).Ok? {
        forall i | 0 <= i < |items| ensures step(items[i]).Ok? {
          if i < |front| { assert items[i] == front[i]; }
        }
      } else if Gather(step, front).Err? {
        var i :| 0 <= i < |front| && step(front[i]).Err?;
        assert items[i] == front[i];
      }
    }
  }

  /** The loop after one more item. */
  lemma {:induction false} GatherStep<T, U>(step: T -> Result<seq<U>>, items: seq<T>, j: nat, results: seq<U>)
    requires j < |items| && Gather(step, items[..j]) == Ok(results)
    ensures Gather(step, items[..j + 1]) ==
      match step(items[j])
      case Err(e) => Err(e)
      case Ok(more) => Ok(results + more)
  {
    assert items[..j + 1][..j] == items[..j];
  }

  /** Once a step fails, so does the whole loop, with the same error. */
  lemma {:induction false} GatherStop<T, U>(step: T -> Result<seq<U>>, items: seq<T>, i: int)
    requires 0 < i <= |items| && Gather(step, items[..i]).Err?
    ensures Gather(step, items) == Gather(step, items[..i])
    decreases |items|
  {
    if i < |items| {
      var front := items[..|items| - 1];
      assert front[..i] == items[..i];
      GatherStop(step, front, i);
    } else {
      assert items[..i] == items;
    }
  }

  /** Every output comes from the step of one item. */
  lemma {:induction false} GatherFrom<T, U>(step: T -> Result<seq<U>>, items: seq<T>, x: U)
    requires Gather(step, items).Ok? && x in Gather(step, items).value
    ensures exists i :: 0 <= i < |items| && step(items[i]).Ok? && x in step(items[i]).value
    decreases |items|
  {
    var front := items[..|items| - 1];
    var last := items[|items| - 1];
    if x in Gather(step, front).value {
      GatherFrom(step, front, x);
      var i :| 0 <= i < |front| && step(front[i]).Ok? && x in step(front[i]).value;
      assert front[i] == items[i];
    } else {
      assert x in step(last).value;
    }
  }

  /** A loop that succeeds ran every step successfully and kept its
      outputs. */
  lemma {:induction false} GatherHas<T, U>(step: T -> Result<seq<U>>, items: seq<T>, i: int)
    requires Gather(step, items).Ok? && 0 <= i < |items|
    ensures step(items[i]).Ok?
    ensures forall x :: x in step(items[i]).value ==> x in Gather(step, items).value
    decreases |items|
  {
    var front := items[..|items| - 1];
    if i < |front| {
      GatherHas(step, front, i);
      assert front[i] == items[i];
    }
  }

  /** With one output per step, the outputs line up with the items. */
  lemma {:induction false} GatherSingles<T, U>(step: T -> Result<seq<U>>, items: seq<T>)
    requires forall x :: step(x).Ok? ==> |step(x).value| == 1
    requires Gather(step, items).Ok?
    ensures |Gather(step, items).value| == |items|
    ensures forall i :: 0 <= i < |items| ==>
      step(items[i]).Ok? && Gather(step, items).value[i] == step(items[i]).value[0]
    decreases |items|
  {
    if items != [] {
      var front := items[..|items| - 1];
      GatherSingles(step, front);
      forall i | 0 <= i < |front| ensures front[i] == items[i] { }
    }
  }

  /** Concatenation re-associated: said once, so that loops appending to a
      concatenation need not rediscover it. */
  lemma {:induction false} Regroup<T>(a: seq<T>, b: seq<T>, c: seq<T>)
    ensures a + b + c == a + (b + c)
  {
  }

  /** f applied to each item, in order. */
  function Mapped<A, B>(f: A --> B, xs: seq<A>): (r: seq<B>)
    requires forall i :: 0 <= i < |xs| ==> f.requires(xs[i])
    ensures |r| == |xs|
    ensures forall i :: 0 <= i < |xs| ==> r[i] == f(xs[i])
  {
    if xs == [] then [] else Mapped(f, xs[..|xs| - 1]) + [f(xs[|xs| - 1])]
  }

  /** Mapping one more item appends its image. */
  lemma {:induction false} MappedSnoc<A, B>(f: A --> B, xs: seq<A>, i: nat)
    requires i < |xs| && forall j :: 0 <= j < |xs| ==> f.requires(xs[j])
    ensures Mapped(f, xs[..i + 1]) == Mapped(f, xs[..i]) + [f(xs[i])]
  {
    assert xs[..i + 1][..i] == xs[..i];
  }
}
