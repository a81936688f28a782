/**
 * Workspace content initializers: the checkout locations a workspace
 * initializer specification names, and the run of a composite initializer,
 * which runs its children in order, each once, and stops at the first error.
 */
module Initializers {
  import opened Results
  import opened Strings

  /** Where the content of a workspace came from (WorkspaceInitSource). */
  datatype InitSource = FromBackup | FromPrebuild | FromOther

  /**
   * The WorkspaceInitializer message: a Git initializer with its checkout
   * location, a composite of further initializers, or any other kind.
   */
  datatype InitializerSpec =
    | GitSpec(checkoutLocation: string)
    | CompositeSpec(initializers: seq<InitializerSpec>)
    | OtherSpec

  /**
   * `GetCheckoutLocationsFromInitializer`: a Git initializer names its own
   * location, a composite every location its Git children name, any other
   * kind none.
   */
  function CheckoutLocations(spec: InitializerSpec): (r: seq<string>)
    ensures spec.GitSpec? ==> r == [spec.checkoutLocation]
    ensures spec.OtherSpec? ==> r == []
    ensures spec.CompositeSpec? ==>
              forall k :: 0 <= k < |spec.initializers| && spec.initializers[k].GitSpec? ==>
                spec.initializers[k].checkoutLocation in r
    decreases spec, 1
  {
    match spec
    case GitSpec(location) => [location]
    case CompositeSpec(children) => ChildrenCheckoutLocations(children)
    case OtherSpec => []
  }

  /** The checkout locations of a list of initializers, in list order. */
  function ChildrenCheckoutLocations(children: seq<InitializerSpec>): (r: seq<string>)
    ensures forall k :: 0 <= k < |children| && children[k].GitSpec? ==> children[k].checkoutLocation in r
    decreases children, 0
  {
    if |children| == 0 then []
    else CheckoutLocations(children[0]) + ChildrenCheckoutLocations(children[1..])
  }

  /** The concatenation of a list of lists, in order. */
  function Flatten(xss: seq<seq<string>>): seq<string> {
    if |xss| == 0 then [] else xss[0] + Flatten(xss[1..])
  }

  /** Flattening distributes over the concatenation of the outer lists. */
  lemma {:induction false} FlattenAppend(a: seq<seq<string>>, b: seq<seq<string>>)
    ensures Flatten(a + b) == Flatten(a) + Flatten(b)
    decreases |a|
  {
    if |a| > 0 {
      assert (a + b)[1..] == a[1..] + b;
      FlattenAppend(a[1..], b);
    } else {
      assert a + b == b;
    }
  }

  /** A single Git initializer has exactly its own checkout location. */
  lemma GitCheckoutLocation(location: string)
    ensures CheckoutLocations(GitSpec(location)) == [location]
  {
  }

  /**
   * The checkout locations of a composite are its children's checkout
   * locations concatenated in child order.
   */
  lemma {:induction false} CompositeCheckoutLocations(children: seq<InitializerSpec>)
    ensures CheckoutLocations(CompositeSpec(children))
            == Flatten(seq(|children|, k requires 0 <= k < |children| => CheckoutLocations(children[k])))
    decreases |children|
  {
    var parts := seq(|children|, k requires 0 <= k < |children| => CheckoutLocations(children[k]));
    if |children| > 0 {
      CompositeCheckoutLocations(children[1..]);
      assert parts[1..] == seq(|children[1..]|, k requires 0 <= k < |children[1..]| => CheckoutLocations(children[1..][k]));
    }
  }

  /**
   * Nesting does not reorder: a composite of two composites names the same
   * locations, in the same order, as one composite of all their children.
   */
  lemma NestedCompositeLocations(a: seq<InitializerSpec>, b: seq<InitializerSpec>)
    ensures CheckoutLocations(CompositeSpec([CompositeSpec(a), CompositeSpec(b)]))
            == CheckoutLocations(CompositeSpec(a + b))
  {
    var pa := seq(|a|, k requires 0 <= k < |a| => CheckoutLocations(a[k]));
    var pb := seq(|b|, k requires 0 <= k < |b| => CheckoutLocations(b[k]));
    var ab := a + b;
    CompositeCheckoutLocations(a);
    CompositeCheckoutLocations(b);
    CompositeCheckoutLocations(ab);
    assert seq(|ab|, k requires 0 <= k < |ab| => CheckoutLocations(ab[k])) == pa + pb;
    FlattenAppend(pa, pb);
    var outer := [CompositeSpec(a), CompositeSpec(b)];
    assert outer[1..] == [CompositeSpec(b)];
    assert ChildrenCheckoutLocations(outer[1..]) == Flatten(pb) by {
      assert outer[1..][1..] == [];
    }
    assert CheckoutLocations(CompositeSpec(outer)) == Flatten(pa) + Flatten(pb);
  }

  /** The test case with two Git initializers at `/foo` and `/bar`. */
  lemma TwoGitInitializersJoin()
    ensures Join(CheckoutLocations(CompositeSpec([GitSpec("/foo"), GitSpec("/bar")])), ",") == "/foo,/bar"
  {
    assert CheckoutLocations(CompositeSpec([GitSpec("/foo"), GitSpec("/bar")])) == ["/foo", "/bar"] by {
      assert [GitSpec("/foo"), GitSpec("/bar")][1..] == [GitSpec("/bar")];
    }
  }

  /**
   * A runnable initializer. `Recording` counts how often it was run and
   * always succeeds; `Func` returns a fixed source and, if present, a fixed
   * error; `Composite` runs its children.
   */
  datatype Initializer =
    | Recording(callCount: nat)
    | Func(source: InitSource, err: Option<string>)
    | Composite(children: seq<Initializer>)

  /** The initializer after a run, what it returned, and its error if any. */
  datatype RunResult = RunResult(after: Initializer, source: InitSource, err: Option<string>)

  /**
   * The children of a composite after its run, how many times each one was
   * run, and the error the composite returns.
   */
  datatype ChildrenRun = ChildrenRun(after: seq<Initializer>, calls: seq<nat>, err: Option<string>)

  /**
   * `Initializer.Run`: a recording initializer counts the call and succeeds, a
   * function initializer keeps its state and returns its fixed answer, a
   * composite runs its children and keeps their number.
   */
  function Run(init: Initializer): (r: RunResult)
    ensures init.Recording? ==> r.after == Recording(init.callCount + 1) && r.err.None?
    ensures init.Func? ==> r.after == init && r.source == init.source && r.err == init.err
    ensures init.Composite? ==> r.after.Composite? && |r.after.children| == |init.children|
    decreases init, 1
  {
    match init
    case Recording(n) => RunResult(Recording(n + 1), FromOther, None)
    case Func(source, err) => RunResult(init, source, err)
    case Composite(children) =>
      var cr := RunChildren(children);
      RunResult(Composite(cr.after), FromOther, cr.err)
  }

  /** Whether running `init` (in its current state) returns an error. */
  predicate Fails(init: Initializer) {
    Run(init).err.Some?
  }

  /** `CompositeInitializer.Run`: run the children in order until one fails. */
  function RunChildren(children: seq<Initializer>): (r: ChildrenRun)
    ensures |r.after| == |children| && |r.calls| == |children|
    ensures forall k :: 0 <= k < |children| ==> r.calls[k] <= 1
    decreases children, 0
  {
    if |children| == 0 then ChildrenRun([], [], None)
    else
      var first := Run(children[0]);
      if first.err.Some? then
        ChildrenRun([first.after] + children[1..], [1] + seq(|children| - 1, _ => 0), first.err)
      else
        var rest := RunChildren(children[1..]);
        ChildrenRun([first.after] + rest.after, [1] + rest.calls, rest.err)
  }

  /**
   * After the composite's run, a child that was run is in its post-run state
   * and a child that was not run is untouched.
   */
  lemma {:induction false} RunChildrenAfter(children: seq<Initializer>, k: nat)
    requires k < |children|
    ensures RunChildren(children).after[k]
            == if RunChildren(children).calls[k] == 1 then Run(children[k]).after else children[k]
    decreases k
  {
    if k > 0 && !Fails(children[0]) {
      RunChildrenAfter(children[1..], k - 1);
      assert children[1..][k - 1] == children[k];
    }
  }

  /** Running a recording initializer adds one to its count and succeeds. */
  lemma RecordingRun(n: nat)
    ensures Run(Recording(n)) == RunResult(Recording(n + 1), FromOther, None)
  {
  }

  /** An empty composite succeeds. */
  lemma EmptyCompositeSucceeds()
    ensures Run(Composite([])).err == None
  {
  }

  /**
   * When no child fails, the composite succeeds and every child is run
   * exactly once.
   */
  lemma {:induction false} AllSucceedRunEachOnce(children: seq<Initializer>)
    requires forall k :: 0 <= k < |children| ==> !Fails(children[k])
    ensures RunChildren(children).err == None
    ensures forall k :: 0 <= k < |children| ==> RunChildren(children).calls[k] == 1
    decreases |children|
  {
    if |children| > 0 {
      assert !Fails(children[0]);
      AllSucceedRunEachOnce(children[1..]);
      var rest := RunChildren(children[1..]);
      forall k | 1 <= k < |children|
        ensures RunChildren(children).calls[k] == 1
      {
        assert RunChildren(children).calls[k] == rest.calls[k - 1];
      }
    }
  }

  /**
   * When child `i` is the first to fail, the composite returns its error, the
   * children up to and including `i` ran once and the later ones never ran.
   */
  lemma {:induction false} StopsAtFirstFailure(children: seq<Initializer>, i: nat)
    requires i < |children| && Fails(children[i])
    requires forall k :: 0 <= k < i ==> !Fails(children[k])
    ensures RunChildren(children).err == Run(children[i]).err
    ensures forall k :: 0 <= k <= i ==> RunChildren(children).calls[k] == 1
    ensures forall k :: i < k < |children| ==> RunChildren(children).calls[k] == 0
    decreases i
  {
    if i > 0 {
      assert !Fails(children[0]);
      var tail := children[1..];
      forall k | 0 <= k < i - 1
        ensures !Fails(tail[k])
      {
        assert tail[k] == children[k + 1];
      }
      StopsAtFirstFailure(tail, i - 1);
      assert tail[i - 1] == children[i];
      assert RunChildren(children).calls == [1] + RunChildren(tail).calls;
    }
  }

  /** The composite fails exactly when one of its children fails. */
  lemma {:induction false} CompositeFailsIffSomeChildFails(children: seq<Initializer>)
    ensures RunChildren(children).err.Some? <==> exists k :: 0 <= k < |children| && Fails(children[k])
    decreases |children|
  {
    if |children| > 0 && !Fails(children[0]) {
      CompositeFailsIffSomeChildFails(children[1..]);
      if exists k :: 0 <= k < |children| && Fails(children[k]) {
        var k :| 0 <= k < |children| && Fails(children[k]);
        assert children[1..][k - 1] == children[k];
      }
    }
  }

  /**
   * A recording child's count after the composite's run is its count before
   * plus the number of times the composite ran it.
   */
  lemma RecordingChildCount(children: seq<Initializer>, k: nat)
    requires k < |children| && children[k].Recording?
    ensures RunChildren(children).after[k] == Recording(children[k].callCount + RunChildren(children).calls[k])
  {
    RunChildrenAfter(children, k);
  }

  /** The test case: three recording children each counted once. */
  lemma ThreeRecordingChildren()
    ensures RunChildren([Recording(0), Recording(0), Recording(0)]).after
            == [Recording(1), Recording(1), Recording(1)]
    ensures RunChildren([Recording(0), Recording(0), Recording(0)]).err == None
  {
    var children := [Recording(0), Recording(0), Recording(0)];
    AllSucceedRunEachOnce(children);
  }

  /**
   * The error-propagation test case: a recording child, a failing child and
   * another recording child. The composite fails; the first child ran once and
   * the last never ran.
   */
  lemma ErrorPropagationCase()
    ensures RunChildren([Recording(0), Func(FromOther, Some("error happened here")), Recording(0)]).err.Some?
    ensures RunChildren([Recording(0), Func(FromOther, Some("error happened here")), Recording(0)]).after[0] == Recording(1)
    ensures RunChildren([Recording(0), Func(FromOther, Some("error happened here")), Recording(0)]).after[2] == Recording(0)
  {
    var children := [Recording(0), Func(FromOther, Some("error happened here")), Recording(0)];
    StopsAtFirstFailure(children, 1);
  }
}
