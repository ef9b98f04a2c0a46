/**
 * PHP arrays as ordered maps, and the built-in `array_merge_recursive` that
 * `KernelConfiguration::withBundleConfiguration` and the annotation reader use.
 *
 * A PHP array is a sequence of entries in insertion order whose keys are
 * integers or strings. Numeric strings are assumed to have been turned into
 * integer keys already, as PHP does on insertion. Values are scalars or
 * nested arrays; floats and objects are not modelled.
 */
module PhpArrays {
  import opened Wrappers

  datatype Key = IntKey(i: int) | StrKey(s: string)

  datatype Scalar = Null | Bool(b: bool) | Int(n: int) | Str(s: string)

  datatype Value = Leaf(scalar: Scalar) | Arr(entries: seq<Entry>)

  datatype Entry = Entry(key: Key, val: Value)

  type PhpArray = seq<Entry>

  /** The keys of `a`, in insertion order. */
  function Keys(a: PhpArray): seq<Key> {
    seq(|a|, n requires 0 <= n < |a| => a[n].key)
  }

  /** The values of `a`, in insertion order (what `array_values` returns). */
  function Values(a: PhpArray): seq<Value> {
    seq(|a|, n requires 0 <= n < |a| => a[n].val)
  }

  /** A well-formed PHP array never holds the same key twice. */
  predicate UniqueKeys(a: PhpArray) {
    forall m, n :: 0 <= m < n < |a| ==> a[m].key != a[n].key
  }

  /** `$a[$k] ?? null`: the value stored under `k`, if any. */
  function Lookup(a: PhpArray, k: Key): (r: Option<Value>)
    ensures r.None? <==> k !in Keys(a)
    ensures r.Some? ==> Entry(k, r.value) in a
  {
    if a == [] then None
    else if a[0].key == k then
      assert Keys(a)[0] == k;
      Some(a[0].val)
    else
      assert Keys(a) == [a[0].key] + Keys(a[1..]);
      Lookup(a[1..], k)
  }

  /** Looking up in an array with one entry in front. */
  lemma {:induction false} LookupCons(e: Entry, rest: PhpArray, k: Key)
    ensures Lookup([e] + rest, k) == if e.key == k then Some(e.val) else Lookup(rest, k)
  {
    assert ([e] + rest)[0] == e;
    assert ([e] + rest)[1..] == rest;
  }

  /**
   * `$a[$k] = $v`: an existing key keeps its position and gets the new value,
   * a new key is added at the end.
   */
  function Put(a: PhpArray, k: Key, v: Value): (r: PhpArray)
    ensures Keys(r) == if k in Keys(a) then Keys(a) else Keys(a) + [k]
    ensures Lookup(r, k) == Some(v)
    ensures forall k' :: k' != k ==> Lookup(r, k') == Lookup(a, k')
  {
    if a == [] then [Entry(k, v)]
    else if a[0].key == k then
      PutAtHead(a, k, v);
      [Entry(k, v)] + a[1..]
    else
      var rest := Put(a[1..], k, v);
      PutBehindHeadKeys(a, k, rest);
      PutBehindHead(a, k, v, rest);
      [a[0]] + rest
  }

  /** `Put` on the key of the first entry replaces that entry's value. */
  lemma {:induction false} PutAtHead(a: PhpArray, k: Key, v: Value)
    requires a != [] && a[0].key == k
    ensures k in Keys(a) && Keys([Entry(k, v)] + a[1..]) == Keys(a)
    ensures forall k' :: Lookup([Entry(k, v)] + a[1..], k') == if k' == k then Some(v) else Lookup(a, k')
  {
    var r := [Entry(k, v)] + a[1..];
    assert Keys(a)[0] == k;
    assert r[1..] == a[1..];
    assert Keys(r) == Keys(a);
    forall k' ensures Lookup(r, k') == if k' == k then Some(v) else Lookup(a, k') {
      LookupCons(Entry(k, v), a[1..], k');
      LookupCons(a[0], a[1..], k');
    }
  }

  /** `Put` on another key keeps the first key in front of the updated tail's keys. */
  lemma {:induction false} PutBehindHeadKeys(a: PhpArray, k: Key, rest: PhpArray)
    requires a != [] && a[0].key != k
    requires Keys(rest) == if k in Keys(a[1..]) then Keys(a[1..]) else Keys(a[1..]) + [k]
    ensures Keys([a[0]] + rest) == if k in Keys(a) then Keys(a) else Keys(a) + [k]
  {
    assert Keys(a) == [a[0].key] + Keys(a[1..]);
    assert Keys([a[0]] + rest) == [a[0].key] + Keys(rest);
    assert (k in Keys(a)) == (k in Keys(a[1..]));
  }

  /** `Put` on another key keeps the first entry in front of the updated tail. */
  lemma {:induction false} PutBehindHead(a: PhpArray, k: Key, v: Value, rest: PhpArray)
    requires a != [] && a[0].key != k
    requires Lookup(rest, k) == Some(v)
    requires forall k' :: k' != k ==> Lookup(rest, k') == Lookup(a[1..], k')
    ensures forall k' :: Lookup([a[0]] + rest, k') == if k' == k then Some(v) else Lookup(a, k')
  {
    forall k' ensures Lookup([a[0]] + rest, k') == if k' == k then Some(v) else Lookup(a, k') {
      LookupCons(a[0], rest, k');
      LookupCons(a[0], a[1..], k');
    }
  }

  /**
   * The index `$a[] = $v` uses: one more than the largest integer key, and 0
   * when there is no non-negative integer key (PHP before 8.3; the model
   * keeps no record of deleted keys, which PHP's counter also remembers).
   */
  function NextIndex(a: PhpArray): (n: nat)
    ensures forall m :: 0 <= m < |a| && a[m].key.IntKey? ==> a[m].key.i < n
    ensures n == 0 || IntKey(n - 1) in Keys(a)
  {
    if a == [] then 0
    else
      var rest := NextIndex(a[1..]);
      assert Keys(a) == [a[0].key] + Keys(a[1..]);
      if a[0].key.IntKey? && a[0].key.i + 1 > rest then a[0].key.i + 1 else rest
  }

  /** `$a[] = $v`. */
  function Append(a: PhpArray, v: Value): (r: PhpArray)
    ensures IntKey(NextIndex(a)) !in Keys(a)
    ensures Keys(r) == Keys(a) + [IntKey(NextIndex(a))]
    ensures Values(r) == Values(a) + [v]
  {
    a + [Entry(IntKey(NextIndex(a)), v)]
  }

  /** The values of `es` under the integer keys `s`, `s + 1`, … in order. */
  function Renumbered(es: PhpArray, s: nat): PhpArray {
    seq(|es|, n requires 0 <= n < |es| => Entry(IntKey(s + n), es[n].val))
  }

  /** The integer-keyed entries of `a`, in order. */
  function IntEntries(a: PhpArray): PhpArray {
    if a == [] then []
    else (if a[0].key.IntKey? then [a[0]] else []) + IntEntries(a[1..])
  }

  /** `(array) $v` as `array_merge_recursive` applies it to a colliding value. */
  function AsList(v: Value): (r: PhpArray)
    ensures v.Arr? ==> r == v.entries
    ensures v.Leaf? ==> |r| == 1 && r[0].key == IntKey(0) && r[0].val == v
  {
    match v
    case Arr(es) => es
    case Leaf(_) => [Entry(IntKey(0), v)]
  }

  /** Number of entries directly inside `v`; only used to order the recursion. */
  function Width(v: Value): nat {
    if v.Arr? then |v.entries| else 0
  }

  /**
   * Merges the entries `src[i..]` into `dest`, one at a time and in order,
   * as PHP's internal `php_array_merge_recursive` does.
   */
  function MergeFrom(dest: PhpArray, src: PhpArray, i: nat): (r: PhpArray)
    requires i <= |src|
    ensures |dest| <= |r| <= |dest| + (|src| - i)
    decreases Arr(src), |src| - i
  {
    if i == |src| then dest else MergeFrom(Step(dest, src[i]), src, i + 1)
  }

  /**
   * One entry of the merge: an integer key is appended under a fresh index;
   * a new string key is added at the end; a string key already present has its
   * value turned into a list and the incoming value merged into that list.
   */
  function Step(dest: PhpArray, e: Entry): (r: PhpArray)
    ensures |dest| <= |r| <= |dest| + 1
    decreases e.val, Width(e.val) + 2
  {
    match e.key
    case IntKey(_) => Append(dest, e.val)
    case StrKey(_) =>
      match Lookup(dest, e.key)
      case None => dest + [e]
      case Some(prev) => Put(dest, e.key, Arr(Combine(prev, e.val)))
  }

  /** The merged value of a string key present on both sides. */
  function Combine(prev: Value, incoming: Value): (r: PhpArray)
    ensures |AsList(prev)| <= |r|
    ensures incoming.Leaf? ==> |r| == |AsList(prev)| + 1 && r[|r| - 1].val == incoming
    decreases incoming, Width(incoming) + 1
  {
    match incoming
    case Arr(es) => MergeFrom(AsList(prev), es, 0)
    case Leaf(_) => Append(AsList(prev), incoming)
  }

  /**
   * `array_merge_recursive($a, $b)`: the first array is copied into an empty
   * one (which renumbers its integer keys), then the second is merged in.
   */
  function MergeRecursive(a: PhpArray, b: PhpArray): (r: PhpArray)
    ensures UniqueKeys(r)
    ensures forall k: Key :: k.StrKey? ==> (k in Keys(r) <==> k in Keys(a) || k in Keys(b))
  {
    var first := MergeFrom([], a, 0);
    MergeFromUnique([], a, 0);
    MergeFromUnique(first, b, 0);
    assert a[0..] == a && b[0..] == b;
    forall k: Key | k.StrKey? ensures k in Keys(MergeFrom(first, b, 0)) <==> k in Keys(a) || k in Keys(b) {
      MergeFromStringKeys([], a, 0, k);
      MergeFromStringKeys(first, b, 0, k);
    }
    MergeFrom(first, b, 0)
  }

  // ---------------------------------------------------------------------
  // Lookup after adding an entry at the end

  lemma {:induction false} LookupAppended(a: PhpArray, e: Entry, k: Key)
    ensures Lookup(a + [e], k) == if k in Keys(a) then Lookup(a, k) else if k == e.key then Some(e.val) else None
  {
    if a != [] {
      assert (a + [e])[1..] == a[1..] + [e];
      assert Keys(a) == [a[0].key] + Keys(a[1..]);
      LookupAppended(a[1..], e, k);
    }
  }

  // ---------------------------------------------------------------------
  // One step of the merge

  /** A step leaves every string key other than its own alone. */
  lemma {:induction false} StepLookupOther(dest: PhpArray, e: Entry, k: Key)
    requires k.StrKey? && k != e.key
    ensures Lookup(Step(dest, e), k) == Lookup(dest, k)
  {
    match e.key
    case IntKey(_) =>
      LookupAppended(dest, Entry(IntKey(NextIndex(dest)), e.val), k);
    case StrKey(_) =>
      if Lookup(dest, e.key).None? {
        LookupAppended(dest, e, k);
      }
  }

  /** What a step stores under its own string key. */
  lemma {:induction false} StepLookupOwn(dest: PhpArray, e: Entry)
    requires e.key.StrKey?
    ensures Lookup(Step(dest, e), e.key) ==
      match Lookup(dest, e.key)
      case None => Some(e.val)
      case Some(prev) => Some(Arr(Combine(prev, e.val)))
  {
    if Lookup(dest, e.key).None? {
      LookupAppended(dest, e, e.key);
    }
  }

  /** A step keeps the existing keys in place and adds at most its own key (or a fresh index) at the end. */
  lemma {:induction false} StepKeys(dest: PhpArray, e: Entry)
    ensures Keys(dest) <= Keys(Step(dest, e))
    ensures e.key.StrKey? ==> Keys(Step(dest, e)) == if e.key in Keys(dest) then Keys(dest) else Keys(dest) + [e.key]
    ensures e.key.IntKey? ==> Keys(Step(dest, e)) == Keys(dest) + [IntKey(NextIndex(dest))]
  {
    match e.key
    case IntKey(_) =>
    case StrKey(_) =>
      if Lookup(dest, e.key).None? {
        assert Keys(dest + [e]) == Keys(dest) + [e.key];
      }
  }

  lemma {:induction false} StepUnique(dest: PhpArray, e: Entry)
    requires UniqueKeys(dest)
    ensures UniqueKeys(Step(dest, e))
  {
    var r := Step(dest, e);
    StepKeys(dest, e);
    forall m, n | 0 <= m < n < |r| ensures r[m].key != r[n].key {
      assert Keys(r)[m] == r[m].key && Keys(r)[n] == r[n].key;
      if n < |dest| {
        assert Keys(dest)[m] == dest[m].key && Keys(dest)[n] == dest[n].key;
      } else {
        assert Keys(dest)[m] == dest[m].key;
      }
    }
  }

  // ---------------------------------------------------------------------
  // The whole merge

  /** The merge keeps a well-formed array well-formed. */
  lemma {:induction false} MergeFromUnique(dest: PhpArray, src: PhpArray, i: nat)
    requires i <= |src| && UniqueKeys(dest)
    ensures UniqueKeys(MergeFrom(dest, src, i))
    decreases |src| - i
  {
    if i < |src| {
      StepUnique(dest, src[i]);
      MergeFromUnique(Step(dest, src[i]), src, i + 1);
    }
  }

  /** The keys already in `dest` stay first, in their order. */
  lemma {:induction false} MergeFromKeepsOrder(dest: PhpArray, src: PhpArray, i: nat)
    requires i <= |src|
    ensures Keys(dest) <= Keys(MergeFrom(dest, src, i))
    decreases |src| - i
  {
    if i < |src| {
      StepKeys(dest, src[i]);
      MergeFromKeepsOrder(Step(dest, src[i]), src, i + 1);
    }
  }

  /** The string keys of the result are exactly those of either side. */
  lemma {:induction false} MergeFromStringKeys(dest: PhpArray, src: PhpArray, i: nat, k: Key)
    requires i <= |src| && k.StrKey?
    ensures k in Keys(MergeFrom(dest, src, i)) <==> k in Keys(dest) || k in Keys(src[i..])
    decreases |src| - i
  {
    if i < |src| {
      StepKeys(dest, src[i]);
      MergeFromStringKeys(Step(dest, src[i]), src, i + 1, k);
      assert Keys(src[i..]) == [src[i].key] + Keys(src[i + 1..]);
    }
  }

  /** A string key that `src` does not mention keeps its value. */
  lemma {:induction false} MergeFromUntouched(dest: PhpArray, src: PhpArray, i: nat, k: Key)
    requires i <= |src| && k.StrKey? && k !in Keys(src[i..])
    ensures Lookup(MergeFrom(dest, src, i), k) == Lookup(dest, k)
    decreases |src| - i
  {
    if i < |src| {
      assert Keys(src[i..])[0] == src[i].key;
      assert Keys(src[i + 1..]) == Keys(src[i..])[1..];
      StepLookupOther(dest, src[i], k);
      MergeFromUntouched(Step(dest, src[i]), src, i + 1, k);
    }
  }

  /** In a well-formed array, the key of an entry does not occur again after it. */
  lemma {:induction false} KeyNotLater(src: PhpArray, j: nat)
    requires j < |src| && UniqueKeys(src)
    ensures src[j].key !in Keys(src[j + 1..])
  {
    var rest := src[j + 1..];
    forall m | 0 <= m < |rest| ensures Keys(rest)[m] != src[j].key {
      assert rest[m] == src[j + 1 + m];
    }
  }

  /** The entry of `src` that carries a string key decides that key; later entries leave it alone. */
  lemma {:induction false} MergeFromStringKeyHere(dest: PhpArray, src: PhpArray, j: nat)
    requires j < |src| && UniqueKeys(src) && src[j].key.StrKey?
    ensures Lookup(MergeFrom(dest, src, j), src[j].key) ==
      match Lookup(dest, src[j].key)
      case None => Some(src[j].val)
      case Some(prev) => Some(Arr(Combine(prev, src[j].val)))
  {
    var d := Step(dest, src[j]);
    assert MergeFrom(dest, src, j) == MergeFrom(d, src, j + 1);
    KeyNotLater(src, j);
    MergeFromUntouched(d, src, j + 1, src[j].key);
    StepLookupOwn(dest, src[j]);
  }

  /**
   * A string key of `src`: a key new to `dest` gets the incoming value, a key
   * already in `dest` gets the two values combined.
   */
  lemma {:induction false} MergeFromStringKey(dest: PhpArray, src: PhpArray, i: nat, j: nat)
    requires i <= j < |src| && UniqueKeys(src) && src[j].key.StrKey?
    ensures Lookup(MergeFrom(dest, src, i), src[j].key) ==
      match Lookup(dest, src[j].key)
      case None => Some(src[j].val)
      case Some(prev) => Some(Arr(Combine(prev, src[j].val)))
    decreases |src| - i
  {
    if i == j {
      MergeFromStringKeyHere(dest, src, j);
    } else {
      var k := src[j].key;
      assert src[i].key != k;
      assert MergeFrom(dest, src, i) == MergeFrom(Step(dest, src[i]), src, i + 1);
      StepLookupOther(dest, src[i], k);
      MergeFromStringKey(Step(dest, src[i]), src, i + 1, j);
    }
  }

  /**
   * Merging a list (integer keys only) appends its values in order, renumbered
   * from the next free index of `dest`.
   */
  lemma {:induction false} MergeFromList(dest: PhpArray, src: PhpArray, i: nat)
    requires i <= |src|
    requires forall n :: 0 <= n < |src| ==> src[n].key.IntKey?
    ensures MergeFrom(dest, src, i) == dest + Renumbered(src[i..], NextIndex(dest))
    ensures Values(MergeFrom(dest, src, i)) == Values(dest) + Values(src[i..])
    decreases |src| - i
  {
    if i < |src| {
      var d := Step(dest, src[i]);
      assert d == Append(dest, src[i].val) by {
        assert src[i].key.IntKey?;
      }
      assert MergeFrom(dest, src, i) == MergeFrom(d, src, i + 1);
      MergeFromList(d, src, i + 1);
      NextIndexAppended(dest, src[i].val);
      AppendRenumbered(dest, src[i..], NextIndex(dest));
      assert src[i..][0] == src[i] && src[i..][1..] == src[i + 1..];
    } else {
      assert src[i..] == [];
    }
    ValuesConcat(dest, Renumbered(src[i..], NextIndex(dest)));
    assert Values(Renumbered(src[i..], NextIndex(dest))) == Values(src[i..]);
  }

  /** Merging string-keyed entries whose keys are all new simply adds them at the end. */
  lemma {:induction false} MergeFromNewKeys(dest: PhpArray, src: PhpArray, i: nat)
    requires i <= |src| && UniqueKeys(src)
    requires forall n :: i <= n < |src| ==> src[n].key.StrKey? && src[n].key !in Keys(dest)
    ensures MergeFrom(dest, src, i) == dest + src[i..]
    decreases |src| - i
  {
    if i < |src| {
      var d := dest + [src[i]];
      assert Step(dest, src[i]) == d;
      forall n | i + 1 <= n < |src| ensures src[n].key.StrKey? && src[n].key !in Keys(d) {
        assert src[n].key != src[i].key;
        assert Keys(d) == Keys(dest) + [src[i].key];
      }
      MergeFromNewKeys(d, src, i + 1);
      assert d + src[i + 1..] == dest + src[i..];
    }
  }

  // ---------------------------------------------------------------------
  // Integer keys

  /** Appending takes the next free index, so the following one is free next. */
  lemma {:induction false} NextIndexAppended(a: PhpArray, v: Value)
    ensures NextIndex(Append(a, v)) == NextIndex(a) + 1
  {
    var r := Append(a, v);
    var n := NextIndex(r);
    assert r[|a|].key == IntKey(NextIndex(a));
    assert Keys(r)[|r| - 1] == IntKey(NextIndex(a));
    assert IntKey(n - 1) in Keys(a) + [IntKey(NextIndex(a))];
  }

  lemma {:induction false} RenumberedCons(e: Entry, es: PhpArray, s: nat)
    ensures Renumbered([e] + es, s) == [Entry(IntKey(s), e.val)] + Renumbered(es, s + 1)
  {
    var l := Renumbered([e] + es, s);
    var r := [Entry(IntKey(s), e.val)] + Renumbered(es, s + 1);
    assert |l| == |r|;
    forall n | 0 <= n < |l| ensures l[n] == r[n] {
      if n > 0 {
        assert ([e] + es)[n] == es[n - 1];
      }
    }
  }

  /** Appending the first of `es` and then the rest renumbered is appending all of `es` renumbered. */
  lemma {:induction false} AppendRenumbered(dest: PhpArray, es: PhpArray, s: nat)
    requires es != []
    ensures dest + [Entry(IntKey(s), es[0].val)] + Renumbered(es[1..], s + 1) == dest + Renumbered(es, s)
  {
    var e := Entry(IntKey(s), es[0].val);
    assert es == [es[0]] + es[1..];
    RenumberedCons(es[0], es[1..], s);
    assert dest + [e] + Renumbered(es[1..], s + 1) == dest + ([e] + Renumbered(es[1..], s + 1));
  }

  lemma {:induction false} RenumberedSnoc(es: PhpArray, e: Entry, s: nat)
    ensures Renumbered(es + [e], s) == Renumbered(es, s) + [Entry(IntKey(s + |es|), e.val)]
  {
    var l := Renumbered(es + [e], s);
    var r := Renumbered(es, s) + [Entry(IntKey(s + |es|), e.val)];
    assert |l| == |r|;
    forall n | 0 <= n < |l| ensures l[n] == r[n] {
      if n < |es| {
        assert (es + [e])[n] == es[n];
      }
    }
  }

  /** Renumbering looks only at the values, so renumbering twice is renumbering once. */
  lemma {:induction false} RenumberedRenumbered(x: PhpArray, y: PhpArray)
    ensures Renumbered(Renumbered(x, 0) + y, 0) == Renumbered(x + y, 0)
  {
    var l := Renumbered(Renumbered(x, 0) + y, 0);
    var r := Renumbered(x + y, 0);
    assert |l| == |r|;
    forall n | 0 <= n < |l| ensures l[n] == r[n] {
      if n < |x| {
        assert (Renumbered(x, 0) + y)[n] == Renumbered(x, 0)[n];
        assert (x + y)[n] == x[n];
      } else {
        assert (Renumbered(x, 0) + y)[n] == y[n - |x|];
        assert (x + y)[n] == y[n - |x|];
      }
    }
  }

  lemma {:induction false} ValuesConcat(x: PhpArray, y: PhpArray)
    ensures Values(x + y) == Values(x) + Values(y)
  {
    assert |Values(x + y)| == |Values(x) + Values(y)|;
    forall n | 0 <= n < |x + y| ensures Values(x + y)[n] == (Values(x) + Values(y))[n] {
      if n >= |x| {
        assert (x + y)[n] == y[n - |x|];
      }
    }
  }

  /** A list numbered from 0 has the next free index equal to its length. */
  lemma {:induction false} NextIndexRenumbered(es: PhpArray)
    ensures NextIndex(Renumbered(es, 0)) == |es|
    decreases |es|
  {
    if es != [] {
      var init := es[..|es| - 1];
      var last := es[|es| - 1];
      assert es == init + [last];
      NextIndexRenumbered(init);
      RenumberedSnoc(init, last, 0);
      assert Renumbered(es, 0) == Append(Renumbered(init, 0), last.val);
      NextIndexAppended(Renumbered(init, 0), last.val);
    }
  }

  lemma {:induction false} IntEntriesConcat(x: PhpArray, y: PhpArray)
    ensures IntEntries(x + y) == IntEntries(x) + IntEntries(y)
    decreases |x|
  {
    if x == [] {
      assert x + y == y;
    } else {
      var h := if x[0].key.IntKey? then [x[0]] else [];
      assert (x + y)[0] == x[0];
      assert (x + y)[1..] == x[1..] + y;
      assert IntEntries(x + y) == h + IntEntries(x[1..] + y);
      IntEntriesConcat(x[1..], y);
      assert IntEntries(x) == h + IntEntries(x[1..]);
      assert h + (IntEntries(x[1..]) + IntEntries(y)) == (h + IntEntries(x[1..])) + IntEntries(y);
    }
  }

  /** The next free index depends on the integer keys only. */
  lemma {:induction false} NextIndexIntEntries(a: PhpArray)
    ensures NextIndex(IntEntries(a)) == NextIndex(a)
    decreases |a|
  {
    if a != [] {
      NextIndexIntEntries(a[1..]);
      if a[0].key.IntKey? {
        assert ([a[0]] + IntEntries(a[1..]))[1..] == IntEntries(a[1..]);
      } else {
        assert IntEntries(a) == IntEntries(a[1..]);
      }
    }
  }

  /** Assigning a string key leaves the integer-keyed entries alone. */
  lemma {:induction false} PutIntEntries(a: PhpArray, k: Key, v: Value)
    requires k.StrKey?
    ensures IntEntries(Put(a, k, v)) == IntEntries(a)
    decreases |a|
  {
    if a == [] {
    } else if a[0].key == k {
      assert ([Entry(k, v)] + a[1..])[1..] == a[1..];
    } else {
      PutIntEntries(a[1..], k, v);
      assert ([a[0]] + Put(a[1..], k, v))[1..] == Put(a[1..], k, v);
    }
  }

  /**
   * One step of the merge on a target whose integer keys run 0, 1, … in order:
   * an integer-keyed entry's value goes on the end of that list, and a
   * string-keyed entry leaves it alone.
   */
  lemma {:induction false} StepIntEntries(dest: PhpArray, e: Entry)
    requires IntEntries(dest) == Renumbered(IntEntries(dest), 0)
    ensures IntEntries(Step(dest, e)) == Renumbered(IntEntries(dest) + IntEntries([e]), 0)
    ensures IntEntries(Step(dest, e)) == Renumbered(IntEntries(Step(dest, e)), 0)
  {
    var ds := IntEntries(dest);
    var ws := IntEntries([e]);
    RenumberedRenumbered(ds + ws, []);
    assert ds + ws + [] == ds + ws;
    assert Renumbered(ds + ws, 0) + [] == Renumbered(ds + ws, 0);
    assert [e][1..] == [];
    match e.key
    case IntKey(_) =>
      var x := Entry(IntKey(NextIndex(dest)), e.val);
      IntEntriesConcat(dest, [x]);
      assert [x][1..] == [];
      NextIndexIntEntries(dest);
      NextIndexRenumbered(ds);
      RenumberedSnoc(ds, e, 0);
      assert IntEntries([e]) == [e];
    case StrKey(_) =>
      assert IntEntries([e]) == [];
      assert ds + [] == ds;
      if Lookup(dest, e.key).None? {
        IntEntriesConcat(dest, [e]);
      } else {
        PutIntEntries(dest, e.key, Arr(Combine(Lookup(dest, e.key).value, e.val)));
      }
  }

  /** The integer-keyed entries of `src[i..]` are those of `src[i]` followed by those after it. */
  lemma {:induction false} IntEntriesTail(ds: PhpArray, src: PhpArray, i: nat)
    requires i < |src|
    ensures Renumbered(Renumbered(ds + IntEntries([src[i]]), 0) + IntEntries(src[i + 1..]), 0)
      == Renumbered(ds + IntEntries(src[i..]), 0)
  {
    var ws := IntEntries([src[i]]);
    var later := IntEntries(src[i + 1..]);
    RenumberedRenumbered(ds + ws, later);
    assert src[i..] == [src[i]] + src[i + 1..];
    IntEntriesConcat([src[i]], src[i + 1..]);
    assert ds + ws + later == ds + IntEntries(src[i..]);
  }

  /** Merging `src[i..]` puts its integer-keyed values after the target's, numbered on from them. */
  lemma {:induction false} MergeFromIntEntries(dest: PhpArray, src: PhpArray, i: nat)
    requires i <= |src|
    requires IntEntries(dest) == Renumbered(IntEntries(dest), 0)
    ensures IntEntries(MergeFrom(dest, src, i)) == Renumbered(IntEntries(dest) + IntEntries(src[i..]), 0)
    decreases |src| - i
  {
    if i == |src| {
      assert IntEntries(src[i..]) == [];
      assert IntEntries(dest) + [] == IntEntries(dest);
    } else {
      var d := Step(dest, src[i]);
      StepIntEntries(dest, src[i]);
      MergeFromIntEntries(d, src, i + 1);
      IntEntriesTail(IntEntries(dest), src, i);
      assert MergeFrom(dest, src, i) == MergeFrom(d, src, i + 1);
    }
  }

  /**
   * `array_merge_recursive($a, $b)` on integer keys: the integer-keyed entries
   * of the result hold the values of those of `a`, then those of `b`, in
   * order and renumbered 0, 1, ….
   */
  lemma {:induction false} MergeRecursiveIntKeys(a: PhpArray, b: PhpArray)
    ensures IntEntries(MergeRecursive(a, b)) == Renumbered(IntEntries(a) + IntEntries(b), 0)
  {
    var first := MergeFrom([], a, 0);
    assert a[0..] == a && b[0..] == b;
    assert IntEntries([]) == [];
    assert Renumbered([], 0) == [];
    MergeFromIntEntries([], a, 0);
    assert [] + IntEntries(a) == IntEntries(a);
    RenumberedRenumbered(IntEntries(a), []);
    assert IntEntries(a) + [] == IntEntries(a);
    assert Renumbered(IntEntries(a), 0) + [] == Renumbered(IntEntries(a), 0);
    MergeFromIntEntries(first, b, 0);
    RenumberedRenumbered(IntEntries(a), IntEntries(b));
    assert MergeRecursive(a, b) == MergeFrom(first, b, 0);
  }

  /**
   * How `array_merge_recursive` combines what two arrays hold under one
   * string key: only one side has it, or both do and the values are combined.
   */
  function MergedValue(x: Option<Value>, y: Option<Value>): Option<Value> {
    match y
    case None => x
    case Some(v) =>
      match x
      case None => Some(v)
      case Some(p) => Some(Arr(Combine(p, v)))
  }

  /** In a well-formed array the entry holding a key is the one `Lookup` finds. */
  lemma {:induction false} LookupAt(a: PhpArray, j: nat)
    requires UniqueKeys(a) && j < |a|
    ensures Lookup(a, a[j].key) == Some(a[j].val)
  {
    assert Keys(a)[j] == a[j].key;
    var r := Lookup(a, a[j].key);
    var j' :| 0 <= j' < |a| && a[j'] == Entry(a[j].key, r.value);
  }

  /** Merging a well-formed array into an empty one keeps what each string key holds. */
  lemma {:induction false} MergeFromEmptyLookup(a: PhpArray, k: Key)
    requires UniqueKeys(a) && k.StrKey?
    ensures Lookup(MergeFrom([], a, 0), k) == Lookup(a, k)
  {
    assert a[0..] == a;
    MergeFromStringKeys([], a, 0, k);
    if k in Keys(a) {
      var j :| 0 <= j < |a| && Keys(a)[j] == k;
      MergeFromStringKey([], a, 0, j);
      LookupAt(a, j);
    }
  }

  /** Merging into `dest` changes a string key exactly as `MergedValue` says. */
  lemma {:induction false} MergeFromLookup(dest: PhpArray, src: PhpArray, k: Key)
    requires UniqueKeys(src) && k.StrKey?
    ensures Lookup(MergeFrom(dest, src, 0), k) == MergedValue(Lookup(dest, k), Lookup(src, k))
  {
    assert src[0..] == src;
    if k in Keys(src) {
      var j :| 0 <= j < |src| && Keys(src)[j] == k;
      MergeFromStringKey(dest, src, 0, j);
      LookupAt(src, j);
    } else {
      MergeFromUntouched(dest, src, 0, k);
    }
  }

  /**
   * `array_merge_recursive($a, $b)` under a string key: the value of whichever
   * side has the key, or the two values combined when both have it.
   */
  lemma {:induction false} MergeRecursiveLookup(a: PhpArray, b: PhpArray, k: Key)
    requires UniqueKeys(a) && UniqueKeys(b) && k.StrKey?
    ensures Lookup(MergeRecursive(a, b), k) == MergedValue(Lookup(a, k), Lookup(b, k))
  {
    MergeFromEmptyLookup(a, k);
    MergeFromLookup(MergeFrom([], a, 0), b, k);
  }

  /** Two colliding scalars become the two-element list `[old, new]`: the later one does not win. */
  lemma {:induction false} CombineScalars(s: Scalar, t: Scalar)
    ensures Combine(Leaf(s), Leaf(t)) == [Entry(IntKey(0), Leaf(s)), Entry(IntKey(1), Leaf(t))]
  {
    assert NextIndex([Entry(IntKey(0), Leaf(s))]) == 1;
  }

  /** Assigning a key keeps a property that every entry has, if the new entry has it too. */
  lemma {:induction false} PutKeepsAll(a: PhpArray, k: Key, v: Value, P: Entry -> bool)
    requires forall n :: 0 <= n < |a| ==> P(a[n])
    requires P(Entry(k, v))
    ensures forall n :: 0 <= n < |Put(a, k, v)| ==> P(Put(a, k, v)[n])
  {
    if a != [] && a[0].key != k {
      PutKeepsAll(a[1..], k, v, P);
      var r := Put(a, k, v);
      forall n | 0 <= n < |r| ensures P(r[n]) {
        if n > 0 {
          assert r[n] == Put(a[1..], k, v)[n - 1];
        }
      }
    }
  }

  /** Assigning a key keeps an array well-formed. */
  lemma {:induction false} PutUnique(a: PhpArray, k: Key, v: Value)
    requires UniqueKeys(a)
    ensures UniqueKeys(Put(a, k, v))
  {
    var r := Put(a, k, v);
    forall m, n | 0 <= m < n < |r| ensures r[m].key != r[n].key {
      assert Keys(r)[m] == r[m].key && Keys(r)[n] == r[n].key;
      if n < |a| {
        assert Keys(a)[m] == a[m].key && Keys(a)[n] == a[n].key;
      } else {
        assert Keys(a)[m] == a[m].key;
      }
    }
  }
}
