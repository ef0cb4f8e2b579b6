/** How a run proceeds: each step leaves events and either goes on with a value or stops
    the run, and a loop over a list runs its steps in order up to the first one that stops. */
module Steps {
  import opened RecipeTypes

  /** Why a run ends early: `log.Fatalf` (an abort with its message) or a nil dereference. */
  datatype Stop = Abort(msg: Msg) | Panic(cause: NilDeref)

  /** The pointer that a panicking run dereferences. */
  datatype NilDeref = NilRecipe(recipeName: string) | NilManifest

  datatype Flow<T> = Go(value: T) | Halt(stop: Stop)

  /** The events of one step and how it ends. */
  datatype Step<T> = Step(events: seq<Event>, flow: Flow<T>)

  /** Runs `next` after `prev` unless `prev` stopped, collecting both steps' values. */
  function Then<Y>(prev: Step<seq<Y>>, next: Step<seq<Y>>): Step<seq<Y>>
  {
    if prev.flow.Halt? then prev
    else Step(prev.events + next.events,
              if next.flow.Halt? then Halt(next.flow.stop) else Go(prev.flow.value + next.flow.value))
  }

  /** A loop over `xs` that appends what each step yields and stops at the first step that stops. */
  function Fold<X, Y>(xs: seq<X>, f: X -> Step<seq<Y>>): Step<seq<Y>>
    decreases |xs|
  {
    if xs == [] then Step([], Go([]))
    else Then(Fold(xs[..|xs| - 1], f), f(xs[|xs| - 1]))
  }

  /** The values and events of the steps of `xs`, all concatenated. */
  function Concat<X, Y>(xs: seq<X>, f: X -> Step<seq<Y>>): (r: (seq<Event>, seq<Y>))
    requires forall i :: 0 <= i < |xs| ==> f(xs[i]).flow.Go?
    decreases |xs|
  {
    if xs == [] then ([], [])
    else
      var r := Concat(xs[..|xs| - 1], f);
      var last := f(xs[|xs| - 1]);
      (r.0 + last.events, r.1 + last.flow.value)
  }

  /** One more element is one more step. */
  lemma FoldSnoc<X, Y>(xs: seq<X>, x: X, f: X -> Step<seq<Y>>)
    ensures Fold(xs + [x], f) == Then(Fold(xs, f), f(x))
  {
    assert (xs + [x])[..|xs|] == xs;
  }

  /** Once a prefix of the loop has stopped, the rest of the list makes no difference. */
  lemma {:induction false} FoldHaltPersists<X, Y>(xs: seq<X>, k: nat, f: X -> Step<seq<Y>>)
    requires k <= |xs|
    requires Fold(xs[..k], f).flow.Halt?
    ensures Fold(xs, f) == Fold(xs[..k], f)
    decreases |xs| - k
  {
    if k < |xs| {
      FoldSnoc(xs[..k], xs[k], f);
      assert xs[..k] + [xs[k]] == xs[..k + 1];
      FoldHaltPersists(xs, k + 1, f);
    } else {
      assert xs[..k] == xs;
    }
  }

  /** The loop goes on to its end exactly when no step stops; it then yields
      the concatenation of all steps' events and values. */
  lemma {:induction false} FoldGoIff<X, Y>(xs: seq<X>, f: X -> Step<seq<Y>>)
    ensures Fold(xs, f).flow.Go? <==> forall i :: 0 <= i < |xs| ==> f(xs[i]).flow.Go?
    ensures (forall i :: 0 <= i < |xs| ==> f(xs[i]).flow.Go?) ==>
              (Fold(xs, f).events, Fold(xs, f).flow.value) == Concat(xs, f)
    decreases |xs|
  {
    if xs != [] {
      var init := xs[..|xs| - 1];
      FoldGoIff(init, f);
      assert forall i :: 0 <= i < |init| ==> init[i] == xs[i];
      if Fold(init, f).flow.Halt? {
        var j :| 0 <= j < |init| && !f(init[j]).flow.Go?;
        assert !f(xs[j]).flow.Go?;
      }
    }
  }

  /** A loop that stops does so at a first stopping element: everything before it went on,
      and nothing after it ran. */
  lemma {:induction false} FoldStopsAtFirstHalt<X, Y>(xs: seq<X>, f: X -> Step<seq<Y>>)
    requires Fold(xs, f).flow.Halt?
    ensures exists k :: 0 <= k < |xs| && Fold(xs[..k], f).flow.Go? && f(xs[k]).flow.Halt? &&
              Fold(xs, f) == Step(Fold(xs[..k], f).events + f(xs[k]).events, f(xs[k]).flow)
    decreases |xs|
  {
    var init := xs[..|xs| - 1];
    if Fold(init, f).flow.Halt? {
      FoldStopsAtFirstHalt(init, f);
      var k :| 0 <= k < |init| && Fold(init[..k], f).flow.Go? && f(init[k]).flow.Halt? &&
                Fold(init, f) == Step(Fold(init[..k], f).events + f(init[k]).events, f(init[k]).flow);
      assert init[..k] == xs[..k] && init[k] == xs[k];
    } else {
      assert xs[..|xs| - 1] == init;
    }
  }

  /** Whatever every step's events satisfy, the loop's events satisfy. */
  lemma {:induction false} FoldEventsSatisfy<X, Y>(xs: seq<X>, f: X -> Step<seq<Y>>, P: Event -> bool)
    requires forall i, e :: 0 <= i < |xs| && e in f(xs[i]).events ==> P(e)
    ensures forall e :: e in Fold(xs, f).events ==> P(e)
    decreases |xs|
  {
    if xs != [] {
      var init := xs[..|xs| - 1];
      assert forall i :: 0 <= i < |init| ==> init[i] == xs[i];
      FoldEventsSatisfy(init, f, P);
    }
  }

  /** Two loops whose steps agree on how they end and on their events up to error log lines
      agree in the same way. */
  lemma {:induction false} FoldQuietCongruent<X, Y>(xs: seq<X>, f: X -> Step<seq<Y>>, g: X -> Step<seq<Y>>)
    requires forall i :: 0 <= i < |xs| ==> f(xs[i]).flow == g(xs[i]).flow
    requires forall i :: 0 <= i < |xs| ==> Unlogged(f(xs[i]).events) == Unlogged(g(xs[i]).events)
    ensures Fold(xs, f).flow == Fold(xs, g).flow
    ensures Unlogged(Fold(xs, f).events) == Unlogged(Fold(xs, g).events)
    decreases |xs|
  {
    if xs != [] {
      var init := xs[..|xs| - 1];
      assert forall i :: 0 <= i < |init| ==> init[i] == xs[i];
      FoldQuietCongruent(init, f, g);
      var last := xs[|xs| - 1];
      if Fold(init, f).flow.Go? {
        UnloggedAppend(Fold(init, f).events, f(last).events);
        UnloggedAppend(Fold(init, g).events, g(last).events);
      }
    }
  }

  /** A loop whose every step goes on and executes its own element executes the whole list. */
  lemma {:induction false} FoldExecutesEach<Y>(xs: seq<Recipe>, f: Recipe -> Step<seq<Y>>)
    requires forall i :: 0 <= i < |xs| ==> f(xs[i]).flow.Go? && Executed(f(xs[i]).events) == [xs[i]]
    ensures Fold(xs, f).flow.Go?
    ensures Executed(Fold(xs, f).events) == xs
    decreases |xs|
  {
    if xs != [] {
      var init := xs[..|xs| - 1];
      var last := xs[|xs| - 1];
      assert forall i :: 0 <= i < |init| ==> init[i] == xs[i];
      FoldExecutesEach(init, f);
      ExecutedAppend(Fold(init, f).events, f(last).events);
      assert init + [last] == xs;
    }
  }

  /** One iteration of a loop specified by `Fold`: a step that stops ends the whole loop, and a
      step that goes on extends the prefix. */
  lemma FoldAdvance<X, Y>(xs: seq<X>, i: nat, f: X -> Step<seq<Y>>, events: seq<Event>, vals: seq<Y>)
    requires i < |xs| && Fold(xs[..i], f) == Step(events, Go(vals))
    ensures f(xs[i]).flow.Halt? ==> Fold(xs, f) == Step(events + f(xs[i]).events, Halt(f(xs[i]).flow.stop))
    ensures f(xs[i]).flow.Go? ==>
              Fold(xs[..i + 1], f) == Step(events + f(xs[i]).events, Go(vals + f(xs[i]).flow.value))
    ensures f(xs[i]).flow == Go([]) ==> Fold(xs[..i + 1], f) == Step(events + f(xs[i]).events, Go(vals))
  {
    assert vals + [] == vals;
    FoldSnoc(xs[..i], xs[i], f);
    assert xs[..i] + [xs[i]] == xs[..i + 1];
    if f(xs[i]).flow.Halt? {
      FoldHaltPersists(xs, i + 1, f);
    }
  }
}
