/**
 * Reactive streams as finite values. A Uni is observed as the one signal it
 * ends with (an item, possibly null, or a failure); a Multi as the finite
 * sequence of items it emits and how it ends (completion or a failure). The
 * Mutiny combinators the core uses are functions over these values.
 */
module Streams {
  import opened Lang

  datatype Uni<+T> = Resolved(item: Nullable<T>) | Failed(error: Throwable)

  datatype Multi<+T> = Multi(items: seq<T>, failure: Option<Throwable>)

  function Failure<T>(e: Throwable): Multi<T> {
    Multi([], Some(e))
  }

  /** Multi.createFrom().item(x): a null item gives a stream that completes empty. */
  function MultiOfItem<T>(x: Nullable<T>): Multi<T> {
    match x
    case Null => Multi([], None)
    case NonNull(v) => Multi([v], None)
  }

  /** Uni.toMulti: a null item gives a stream that completes empty. */
  function UniToMulti<T>(u: Uni<T>): Multi<T> {
    match u
    case Resolved(x) => MultiOfItem(x)
    case Failed(e) => Failure(e)
  }

  /** Multi.toUni and Uni.createFrom().multi: the first item, else the failure, else null. */
  function ToUni<T>(m: Multi<T>): Uni<T> {
    if |m.items| > 0 then Resolved(NonNull(m.items[0]))
    else if m.failure.Some? then Failed(m.failure.value)
    else Resolved(Null)
  }

  /** Uni.flatMap (and Uni.map with a mapper that may throw): a failure skips the mapper. */
  function UniFlatMap<A, B>(u: Uni<A>, f: Nullable<A> -> Uni<B>): Uni<B> {
    match u
    case Resolved(x) => f(x)
    case Failed(e) => Failed(e)
  }

  /** Uni.onItem().transformToMulti: a failure skips the mapper. */
  function TransformToMulti<A, B>(u: Uni<A>, f: Nullable<A> -> Multi<B>): Multi<B> {
    match u
    case Resolved(x) => f(x)
    case Failed(e) => Failure(e)
  }

  function MapSeq<A, B>(s: seq<A>, f: A -> B): (r: seq<B>)
    ensures |r| == |s|
    ensures forall i :: 0 <= i < |s| ==> r[i] == f(s[i])
  {
    if s == [] then [] else [f(s[0])] + MapSeq(s[1..], f)
  }

  /** Every item of every stream, in order, ignoring how the streams end. */
  function Flatten<T>(ms: seq<Multi<T>>): seq<T> {
    if ms == [] then [] else ms[0].items + Flatten(ms[1..])
  }

  /**
   * Multi.concatenate over streams produced in order: the items of each stream
   * in turn; the first stream that fails ends the result with its failure.
   */
  function Concat<T>(ms: seq<Multi<T>>): Multi<T> {
    if ms == [] then Multi([], None)
    else if ms[0].failure.Some? then ms[0]
    else
      var rest := Concat(ms[1..]);
      Multi(ms[0].items + rest.items, rest.failure)
  }

  /** onItem().transformToUni(u -> u).concatenate(): the Unis in order; a null item is skipped. */
  function ConcatUnis<T>(us: seq<Uni<T>>): Multi<T> {
    Concat(MapSeq(us, UniToMulti))
  }

  /**
   * Multi.concatMap: each item is mapped to a stream and the streams are
   * concatenated in order; a failure of the source ends the result after the
   * streams of all its items.
   */
  function ConcatMap<A, B>(m: Multi<A>, f: A -> Multi<B>): Multi<B> {
    var inner := Concat(MapSeq(m.items, f));
    if inner.failure.Some? then inner else Multi(inner.items, m.failure)
  }

  /** The states an accumulator passes through over xs, the seed excluded. */
  function Accumulate<S, T>(seed: S, xs: seq<T>, acc: (S, T) -> S): (r: seq<S>)
    ensures |r| == |xs|
  {
    if xs == [] then [] else
      var next := acc(seed, xs[0]);
      [next] + Accumulate(next, xs[1..], acc)
  }

  /**
   * Multi.onItem().scan(seedSupplier, accumulator) over a finite source: the
   * intermediate states in order, preceded by the seed when emitsSeed holds.
   * Whether Mutiny emits the seed is a parameter of the model.
   */
  function Scan<S, T>(seed: S, xs: seq<T>, acc: (S, T) -> S, emitsSeed: bool): (r: seq<S>)
    ensures |r| == |xs| + (if emitsSeed then 1 else 0)
    ensures emitsSeed ==> r[0] == seed
    ensures !emitsSeed && |xs| > 0 ==> r[0] == acc(seed, xs[0])
  {
    (if emitsSeed then [seed] else []) + Accumulate(seed, xs, acc)
  }

  /** The left fold: the accumulator applied to every element in turn. */
  function FoldLeft<S, T>(seed: S, xs: seq<T>, acc: (S, T) -> S): S {
    if xs == [] then seed else FoldLeft(acc(seed, xs[0]), xs[1..], acc)
  }

  /** The last state the scan passes through is the left fold. */
  lemma {:induction false} AccumulateEndsInFold<S, T>(seed: S, xs: seq<T>, acc: (S, T) -> S)
    requires |xs| > 0
    ensures Accumulate(seed, xs, acc)[|xs| - 1] == FoldLeft(seed, xs, acc)
  {
    if |xs| > 1 {
      AccumulateEndsInFold(acc(seed, xs[0]), xs[1..], acc);
    }
  }

  /** The first signal among us that is not a null item; a null item when there is none. */
  function FirstSignal<T>(us: seq<Uni<T>>): Uni<T> {
    if us == [] then Resolved(Null)
    else if us[0] != Resolved(Null) then us[0]
    else FirstSignal(us[1..])
  }

  /** Concatenating Unis and taking the first item yields their first non-null signal. */
  lemma {:induction false} ToUniOfConcatUnis<T>(us: seq<Uni<T>>)
    ensures ToUni(ConcatUnis(us)) == FirstSignal(us)
  {
    if us != [] {
      var ms := MapSeq(us, UniToMulti);
      assert MapSeq(us[1..], UniToMulti) == ms[1..];
      ToUniOfConcatUnis(us[1..]);
    }
  }

  /** When no stream fails, concatenation emits every item in order and completes. */
  lemma {:induction false} ConcatComplete<T>(ms: seq<Multi<T>>)
    requires forall i :: 0 <= i < |ms| ==> ms[i].failure.None?
    ensures Concat(ms) == Multi(Flatten(ms), None)
  {
    if ms != [] {
      ConcatComplete(ms[1..]);
    }
  }

  /**
   * When stream k is the first to fail, concatenation emits the items of the
   * streams before it and its own, then fails with its failure: no stream
   * after it contributes anything.
   */
  lemma {:induction false} ConcatFailsAt<T>(ms: seq<Multi<T>>, k: nat)
    requires k < |ms| && ms[k].failure.Some?
    requires forall i :: 0 <= i < k ==> ms[i].failure.None?
    ensures Concat(ms) == Multi(Flatten(ms[..k]) + ms[k].items, ms[k].failure)
  {
    if k > 0 {
      ConcatFailsAt(ms[1..], k - 1);
      assert ms[1..][..k - 1] == ms[..k][1..];
    } else {
      assert ms[..0] == [];
    }
  }

  /** concatMap over a completing source of completing streams: all their items, in source order. */
  lemma ConcatMapInOrder<A, B>(m: Multi<A>, f: A -> Multi<B>)
    requires m.failure.None?
    requires forall i :: 0 <= i < |m.items| ==> f(m.items[i]).failure.None?
    ensures ConcatMap(m, f) == Multi(Flatten(MapSeq(m.items, f)), None)
  {
    ConcatComplete(MapSeq(m.items, f));
  }

  /**
   * concatMap stops at the first item whose stream fails: the items of the
   * streams before it and its own, then that failure; later items are never mapped into the output.
   */
  lemma ConcatMapStopsAtFailure<A, B>(m: Multi<A>, f: A -> Multi<B>, k: nat)
    requires k < |m.items| && f(m.items[k]).failure.Some?
    requires forall i :: 0 <= i < k ==> f(m.items[i]).failure.None?
    ensures ConcatMap(m, f) == Multi(Flatten(MapSeq(m.items, f)[..k]) + f(m.items[k]).items, f(m.items[k]).failure)
  {
    ConcatFailsAt(MapSeq(m.items, f), k);
  }

  /** Repeat(m, k): k copies of a stream. */
  function Repeat<T>(m: Multi<T>, k: nat): (r: seq<Multi<T>>)
    ensures |r| == k && forall i :: 0 <= i < k ==> r[i] == m
  {
    if k == 0 then [] else [m] + Repeat(m, k - 1)
  }

  /** Flattening the whole stream of k copies yields k * |items| items. */
  lemma {:induction false} FlattenRepeatLength<T>(m: Multi<T>, k: nat)
    ensures |Flatten(Repeat(m, k))| == k * |m.items|
  {
    if k > 0 {
      assert Repeat(m, k)[1..] == Repeat(m, k - 1);
      FlattenRepeatLength(m, k - 1);
    }
  }

  /** An accumulator that leaves the seed as it is at every element: every state the scan passes through is the seed. */
  lemma {:induction false} AccumulateUnchanged<S, T>(seed: S, xs: seq<T>, acc: (S, T) -> S)
    requires forall i :: 0 <= i < |xs| ==> acc(seed, xs[i]) == seed
    ensures forall i :: 0 <= i < |xs| ==> Accumulate(seed, xs, acc)[i] == seed
  {
    if xs != [] {
      AccumulateUnchanged(seed, xs[1..], acc);
      assert forall i :: 0 <= i < |xs| - 1 ==> Accumulate(seed, xs, acc)[i + 1] == Accumulate(seed, xs[1..], acc)[i];
    }
  }

  lemma ScanUnchanged<S, T>(seed: S, xs: seq<T>, acc: (S, T) -> S, emitsSeed: bool)
    requires forall i :: 0 <= i < |xs| ==> acc(seed, xs[i]) == seed
    ensures forall i :: 0 <= i < |Scan(seed, xs, acc, emitsSeed)| ==> Scan(seed, xs, acc, emitsSeed)[i] == seed
  {
    AccumulateUnchanged(seed, xs, acc);
  }

  /** Concatenating a single stream gives that stream. */
  lemma ConcatSingle<T>(m: Multi<T>)
    ensures Concat([m]) == m
  {
    assert [m][1..] == [];
    assert m.items + [] == m.items;
  }
}
