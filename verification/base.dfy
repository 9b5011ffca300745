/** Option, Result and Outcome wrappers, and the errors the orchestrator reports.
    Go's `(T, error)` pairs become `Result<T>`; a bare `error` (nil or not) becomes `Outcome`. */
module Base {

  datatype Option<+T> = None | Some(value: T)

  /** Every error the modelled code can return. Errors coming from the Docker daemon, the
      network or the JSON decoder are opaque and carry the collaborator's message. */
  datatype Error =
    | InvalidImageString
    | InvalidContainerName(name: string)
    | InvalidVolumeName
      // Go's runtime panic "index out of range" when a container name has fewer than 3 segments
    | IndexOutOfRange(name: string)
    | InvalidReference(reference: string)
    | NotInTemplate(id: string, templateId: string)
    | NoMatchingVersion(reference: string)
    | UnexpectedStatus(code: int, body: string)
    | Transport(message: string)
    | Decode(message: string)
    | NoCoordinatorImage
    | ReadinessTimeout(maxAttempts: int)
    | Daemon(message: string)
    | UuidFailure(message: string)
    | PathNotFound(path: seq<string>)
    | NotADirectory(path: seq<string>)
    | IsADirectory(path: seq<string>)

  datatype Result<+T> = Ok(value: T) | Err(error: Error)

  datatype Outcome = Pass | Fail(error: Error)

  /** The errors of the failed outcomes, in order. */
  function Failures(os: seq<Outcome>): (errs: seq<Error>)
    ensures |errs| <= |os|
    ensures errs == [] <==> forall i :: 0 <= i < |os| ==> os[i].Pass?
  {
    if os == [] then []
    else
      var prefix := Failures(os[..|os| - 1]);
      var last := os[|os| - 1];
      assert forall i :: 0 <= i < |os| - 1 ==> os[..|os| - 1][i] == os[i];
      if last.Fail? then prefix + [last.error] else prefix
  }

  /** The errors of the failed results, in order. */
  function Errors<T>(rs: seq<Result<T>>): (errs: seq<Error>)
    ensures |errs| <= |rs|
    ensures errs == [] <==> forall i :: 0 <= i < |rs| ==> rs[i].Ok?
  {
    if rs == [] then []
    else
      var prefix := Errors(rs[..|rs| - 1]);
      var last := rs[|rs| - 1];
      assert forall i :: 0 <= i < |rs| - 1 ==> rs[..|rs| - 1][i] == rs[i];
      if last.Err? then prefix + [last.error] else prefix
  }

  /** `rs` in the given order: `Arrived(rs, order)[k] == rs[order[k]]`. */
  function Arrived<T>(rs: seq<T>, order: seq<nat>): (a: seq<T>)
    requires forall k :: 0 <= k < |order| ==> order[k] < |rs|
    ensures |a| == |order|
    ensures forall k :: 0 <= k < |order| ==> a[k] == rs[order[k]]
  {
    if order == [] then []
    else Arrived(rs, order[..|order| - 1]) + [rs[order[|order| - 1]]]
  }

  /** `f` applied to every element, in order. */
  function Map<T, U>(xs: seq<T>, f: T -> U): (ys: seq<U>)
    ensures |ys| == |xs|
    ensures forall i :: 0 <= i < |xs| ==> ys[i] == f(xs[i])
  {
    if xs == [] then [] else Map(xs[..|xs| - 1], f) + [f(xs[|xs| - 1])]
  }

  /** The parts `f` gives for every element, concatenated in order. */
  function Flatten<T, U>(xs: seq<T>, f: T -> seq<U>): seq<U> {
    if xs == [] then [] else Flatten(xs[..|xs| - 1], f) + f(xs[|xs| - 1])
  }

  lemma {:induction false} FlattenAppend<T, U>(a: seq<T>, b: seq<T>, f: T -> seq<U>)
    ensures Flatten(a + b, f) == Flatten(a, f) + Flatten(b, f)
    decreases |b|
  {
    if b == [] {
      assert a + b == a;
    } else {
      var init, last := b[..|b| - 1], b[|b| - 1];
      FlattenAppend(a, init, f);
      assert (a + b)[..|a + b| - 1] == a + init && (a + b)[|a + b| - 1] == last;
      AppendAssoc(Flatten(a, f), Flatten(init, f), f(last));
    }
  }

  lemma FlattenOne<T, U>(x: T, f: T -> seq<U>)
    ensures Flatten([x], f) == f(x)
  {
    assert [x][..0] == [];
  }

  lemma MapSnoc<T, U>(xs: seq<T>, x: T, f: T -> U)
    ensures Map(xs + [x], f) == Map(xs, f) + [f(x)]
  {
    assert (xs + [x])[..|xs|] == xs;
  }

  /** One more arrival. */
  lemma ArrivedSnoc<T>(rs: seq<T>, order: seq<nat>, i: nat)
    requires i < |order|
    requires forall k :: 0 <= k < |order| ==> order[k] < |rs|
    ensures Arrived(rs, order[..i + 1]) == Arrived(rs, order[..i]) + [rs[order[i]]]
  {
    assert order[..i + 1][..i] == order[..i];
  }

  /** The errors of one more result. */
  lemma ErrorsSnoc<T>(rs: seq<Result<T>>, r: Result<T>)
    ensures Errors(rs + [r]) == Errors(rs) + (if r.Err? then [r.error] else [])
  {
    assert (rs + [r])[..|rs|] == rs;
  }

  /** A permutation of 0..n-1: the order in which n concurrent workers report back. */
  predicate IsOrder(order: seq<nat>, n: nat) {
    |order| == n
    && (forall k :: 0 <= k < n ==> order[k] < n)
    && (forall k, l :: 0 <= k < l < n ==> order[k] != order[l])
    && (forall i :: 0 <= i < n ==> i in order)
  }

  /** Reordering results does not change whether one of them failed. */
  lemma {:induction false} ArrivedErrors<T>(rs: seq<Result<T>>, order: seq<nat>)
    requires IsOrder(order, |rs|)
    ensures Errors(Arrived(rs, order)) == [] <==> forall i :: 0 <= i < |rs| ==> rs[i].Ok?
  {
    var a := Arrived(rs, order);
    if forall k :: 0 <= k < |a| ==> a[k].Ok? {
      forall i | 0 <= i < |rs| ensures rs[i].Ok? {
        assert i in order;
        var k :| 0 <= k < |order| && order[k] == i;
        assert a[k] == rs[i];
      }
    }
  }

  /** The elements that `keep` accepts, in order. */
  function Filter<T>(xs: seq<T>, keep: T -> bool): (ys: seq<T>)
    ensures |ys| <= |xs|
    ensures forall y :: y in ys ==> y in xs && keep(y)
  {
    if xs == [] then []
    else Filter(xs[..|xs| - 1], keep) + (if keep(xs[|xs| - 1]) then [xs[|xs| - 1]] else [])
  }

  /** Every accepted element is kept. */
  lemma {:induction false} FilterKeeps<T>(xs: seq<T>, keep: T -> bool)
    ensures forall x :: x in xs && keep(x) ==> x in Filter(xs, keep)
  {
    if xs != [] {
      var init := xs[..|xs| - 1];
      FilterKeeps(init, keep);
      assert xs == init + [xs[|xs| - 1]];
    }
  }

  /** Filtering a concatenation filters each part. */
  lemma {:induction false} FilterAppend<T>(a: seq<T>, b: seq<T>, keep: T -> bool)
    ensures Filter(a + b, keep) == Filter(a, keep) + Filter(b, keep)
    decreases |b|
  {
    if b == [] {
      assert a + b == a;
    } else {
      var init, last := b[..|b| - 1], b[|b| - 1];
      FilterAppend(a, init, keep);
      var tail := if keep(last) then [last] else [];
      assert (a + b)[..|a + b| - 1] == a + init && (a + b)[|a + b| - 1] == last;
      AppendAssoc(Filter(a, keep), Filter(init, keep), tail);
      assert Filter(a + b, keep) == Filter(a + init, keep) + tail;
      assert Filter(b, keep) == Filter(init, keep) + tail;
    }
  }

  /** Slicing one more element off `b`. */
  lemma Snoc<T>(a: seq<T>, b: seq<T>, j: nat)
    requires j < |b|
    ensures a + b[..j + 1] == (a + b[..j]) + [b[j]]
  {
    assert b[..j + 1] == b[..j] + [b[j]];
  }

  /** Extending a prefix by the next element. */
  lemma PrefixSnoc<T>(xs: seq<T>, k: nat)
    requires k < |xs|
    ensures xs[..k + 1] == xs[..k] + [xs[k]]
  {
  }

  /** A sequence cut around its element `k`. */
  lemma Around<T>(xs: seq<T>, k: nat)
    requires k < |xs|
    ensures xs == xs[..k] + ([xs[k]] + xs[k + 1..])
    ensures xs == xs[..k + 1] + xs[k + 1..]
    ensures xs[..k + 1][..k] == xs[..k]
  {
  }

  /** Regrouping a concatenation around a cut of its middle part. */
  lemma Regroup<T>(a: seq<T>, m: seq<T>, j: nat, r: seq<T>)
    requires j <= |m|
    ensures a + (m + r) == (a + m[..j]) + (m[j..] + r)
  {
    assert m == m[..j] + m[j..];
  }

  /** The head and tail of a sequence built by prepending. */
  lemma ConsParts<T>(x: T, ys: seq<T>)
    ensures ([x] + ys)[0] == x && ([x] + ys)[1..] == ys
  {
  }

  /** Indexing past the head of a sequence built by prepending. */
  lemma ConsAt<T>(x: T, ys: seq<T>, k: nat)
    requires 0 < k <= |ys|
    ensures ([x] + ys)[k] == ys[k - 1]
  {
  }

  /** Concatenation regroups freely. */
  lemma AppendAssoc<T>(a: seq<T>, b: seq<T>, c: seq<T>)
    ensures (a + b) + c == a + (b + c)
  {
  }
}
