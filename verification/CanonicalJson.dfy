/** stableRuntimeJson: the text two values share exactly when they are equal up to the
  * order of their object keys. */
module CanonicalJson {
  import opened Prelude
  import opened JsonText

  // ---- the order in which the rebuilt object enumerates its keys ----

  predicate Lex(a: Text, b: Text) {
    b != [] && (a == [] || a[0] < b[0] || (a[0] == b[0] && Lex(a[1..], b[1..])))
  }

  /** 4294967294, the largest array index. */
  const MAX_INDEX: Text := [52, 50, 57, 52, 57, 54, 55, 50, 57, 52]

  predicate AllDigits(a: Text) { forall i :: 0 <= i < |a| ==> IsDigit(a[i]) }

  /** A key JavaScript treats as an array index. */
  predicate IsIndex(a: Text) {
    && a != [] && AllDigits(a)
    && (a[0] == 48 ==> |a| == 1)
    && |a| <= |MAX_INDEX| && (|a| == |MAX_INDEX| ==> a == MAX_INDEX || Lex(a, MAX_INDEX))
  }

  /** Array indices first, by value (by length, then by digits); then the sorted keys. */
  predicate Before(a: Text, b: Text) {
    if IsIndex(a) != IsIndex(b) then IsIndex(a)
    else if IsIndex(a) && |a| != |b| then |a| < |b|
    else Lex(a, b)
  }

  lemma {:induction false} LexTotal(a: Text, b: Text)
    ensures !Lex(a, a)
    ensures a == b || Lex(a, b) || Lex(b, a)
    ensures !(Lex(a, b) && Lex(b, a))
  {
    if a != [] {
      LexTotal(a[1..], if b == [] then [] else b[1..]);
      if b != [] && a[0] == b[0] { assert a == [a[0]] + a[1..] && b == [b[0]] + b[1..]; }
    }
  }

  lemma {:induction false} LexTransitive(a: Text, b: Text, c: Text)
    requires Lex(a, b) && Lex(b, c)
    ensures Lex(a, c)
  {
    if a != [] && a[0] == b[0] == c[0] { LexTransitive(a[1..], b[1..], c[1..]); }
  }

  lemma {:induction false} BeforeTotal(a: Text, b: Text)
    ensures !Before(a, a)
    ensures a == b || Before(a, b) || Before(b, a)
    ensures !(Before(a, b) && Before(b, a))
  {
    LexTotal(a, b);
  }

  lemma {:induction false} BeforeTransitive(a: Text, b: Text, c: Text)
    requires Before(a, b) && Before(b, c)
    ensures Before(a, c)
  {
    if Lex(a, b) && Lex(b, c) { LexTransitive(a, b, c); }
  }

  // ---- sorting entries ----

  predicate Sorted(es: seq<Entry>) { forall i, j :: 0 <= i < j < |es| ==> Before(es[i].key, es[j].key) }

  predicate DistinctKeys(es: seq<Entry>) { forall i, j :: 0 <= i < j < |es| ==> es[i].key != es[j].key }

  function Insert(e: Entry, es: seq<Entry>): seq<Entry> {
    if es == [] || Before(e.key, es[0].key) then [e] + es else [es[0]] + Insert(e, es[1..])
  }

  function Sort(es: seq<Entry>): seq<Entry> {
    if es == [] then [] else Insert(es[0], Sort(es[1..]))
  }

  predicate HasKey(es: seq<Entry>, key: Text) { exists i :: 0 <= i < |es| && es[i].key == key }

  lemma {:induction false} InsertSorted(e: Entry, es: seq<Entry>)
    requires Sorted(es) && !HasKey(es, e.key)
    ensures Sorted(Insert(e, es))
    ensures forall x :: x in Insert(e, es) <==> x == e || x in es
  {
    if es != [] && !Before(e.key, es[0].key) {
      assert forall i :: 0 <= i < |es| - 1 ==> es[1..][i] == es[i + 1];
      InsertSorted(e, es[1..]);
      BeforeTotal(e.key, es[0].key);
      var rest := Insert(e, es[1..]);
      forall j | 0 <= j < |rest| ensures Before(es[0].key, rest[j].key) {
        assert rest[j] in rest;
      }
      assert es == [es[0]] + es[1..];
    } else if es != [] {
      forall j | 0 < j < |es| ensures Before(e.key, es[j].key) { BeforeTransitive(e.key, es[0].key, es[j].key); }
    }
  }

  lemma {:induction false} SortSorts(es: seq<Entry>)
    requires DistinctKeys(es)
    ensures Sorted(Sort(es))
    ensures forall x :: x in Sort(es) <==> x in es
  {
    if es != [] {
      assert forall i :: 0 <= i < |es| - 1 ==> es[1..][i] == es[i + 1];
      SortSorts(es[1..]);
      var rest := Sort(es[1..]);
      forall i | 0 <= i < |rest| ensures rest[i].key != es[0].key { assert rest[i] in es[1..]; }
      InsertSorted(es[0], rest);
      assert es == [es[0]] + es[1..];
    }
  }

  /** A sorted list is determined by its elements. */
  lemma {:induction false} SortedUnique(a: seq<Entry>, b: seq<Entry>)
    requires Sorted(a) && Sorted(b)
    requires forall x :: x in a <==> x in b
    ensures a == b
  {
    assert a != [] ==> a[0] in a;
    assert b != [] ==> b[0] in b;
    if a != [] && b != [] {
      assert a[0] in b && b[0] in a;
      if a[0] != b[0] {
        var i :| 0 < i < |b| && b[i] == a[0];
        var j :| 0 < j < |a| && a[j] == b[0];
        BeforeTotal(a[0].key, b[0].key);
        assert false;
      }
      assert a == [a[0]] + a[1..] && b == [b[0]] + b[1..];
      forall x ensures x in a[1..] <==> x in b[1..] {
        BeforeTotal(a[0].key, a[0].key);
        if x in a[1..] { assert x in b && x != a[0]; }
        if x in b[1..] { assert x in a && x != b[0]; }
      }
      SortedUnique(a[1..], b[1..]);
    }
  }

  // ---- the canonical form ----

  /** Objects have each own key once. */
  predicate WellFormed(v: Json)
    decreases v
  {
    match v
    case Arr(items) => forall i :: 0 <= i < |items| ==> WellFormed(items[i])
    case Obj(entries) => DistinctKeys(entries) && forall i :: 0 <= i < |entries| ==> WellFormed(entries[i].value)
    case _ => true
  }

  function Canon(v: Json): Json
    decreases v, 0
  {
    match v
    case Arr(items) => Arr(CanonItems(items))
    case Obj(entries) => Obj(Sort(CanonEntries(entries)))
    case _ => v
  }

  function CanonItems(items: seq<Json>): (r: seq<Json>)
    decreases items, 1
    ensures |r| == |items| && forall i :: 0 <= i < |items| ==> r[i] == Canon(items[i])
  {
    if items == [] then [] else [Canon(items[0])] + CanonItems(items[1..])
  }

  function CanonEntries(entries: seq<Entry>): (r: seq<Entry>)
    decreases entries, 1
    ensures |r| == |entries|
    ensures forall i :: 0 <= i < |entries| ==> r[i] == Entry(entries[i].key, Canon(entries[i].value))
  {
    if entries == [] then [] else [Entry(entries[0].key, Canon(entries[0].value))] + CanonEntries(entries[1..])
  }

  function StableRuntimeJson(v: Json): Text { Print(Canon(v)) }

  /** Equal up to the order of object keys. */
  ghost predicate Same(v: Json, w: Json)
    decreases v
  {
    if v.Arr? && w.Arr? then
      |v.items| == |w.items| && forall i :: 0 <= i < |v.items| ==> Same(v.items[i], w.items[i])
    else if v.Obj? && w.Obj? then
      && (forall key :: HasKey(v.entries, key) <==> HasKey(w.entries, key))
      && (forall i, j :: 0 <= i < |v.entries| && 0 <= j < |w.entries| && v.entries[i].key == w.entries[j].key
            ==> Same(v.entries[i].value, w.entries[j].value))
    else v == w
  }

  /** Two values have one canonical form exactly when they are the same up to key order. */
  lemma {:induction false} CanonExact(v: Json, w: Json)
    requires WellFormed(v) && WellFormed(w)
    ensures Canon(v) == Canon(w) <==> Same(v, w)
    decreases v
  {
    if v.Arr? && w.Arr? {
      if |v.items| == |w.items| {
        forall i | 0 <= i < |v.items| ensures Canon(v.items[i]) == Canon(w.items[i]) <==> Same(v.items[i], w.items[i]) {
          CanonExact(v.items[i], w.items[i]);
        }
        if Same(v, w) { assert CanonItems(v.items) == CanonItems(w.items); }
        if Canon(v) == Canon(w) {
          forall i | 0 <= i < |v.items| ensures Same(v.items[i], w.items[i]) {
            assert CanonItems(v.items)[i] == CanonItems(w.items)[i];
          }
        }
      }
    } else if v.Obj? && w.Obj? {
      forall i, j | 0 <= i < |v.entries| && 0 <= j < |w.entries|
        ensures Canon(v.entries[i].value) == Canon(w.entries[j].value) <==> Same(v.entries[i].value, w.entries[j].value)
      {
        CanonExact(v.entries[i].value, w.entries[j].value);
      }
      ObjectExact(v.entries, w.entries);
    }
  }

  lemma {:induction false} ObjectExact(a: seq<Entry>, b: seq<Entry>)
    requires DistinctKeys(a) && DistinctKeys(b)
    requires forall i, j :: 0 <= i < |a| && 0 <= j < |b| ==> (Canon(a[i].value) == Canon(b[j].value) <==> Same(a[i].value, b[j].value))
    ensures Sort(CanonEntries(a)) == Sort(CanonEntries(b)) <==> Same(Obj(a), Obj(b))
  {
    var ca, cb := CanonEntries(a), CanonEntries(b);
    SortSorts(ca);
    SortSorts(cb);
    if Same(Obj(a), Obj(b)) {
      SameIn(a, b);
      SameIn(b, a);
      SortedUnique(Sort(ca), Sort(cb));
    }
    if Sort(ca) == Sort(cb) {
      assert forall x :: x in ca <==> x in cb;
      InSame(a, b);
      InSame(b, a);
    }
  }

  lemma {:induction false} SameIn(a: seq<Entry>, b: seq<Entry>)
    requires forall key :: HasKey(a, key) ==> HasKey(b, key)
    requires forall i, j :: 0 <= i < |a| && 0 <= j < |b| && a[i].key == b[j].key ==> Canon(a[i].value) == Canon(b[j].value)
    ensures forall x :: x in CanonEntries(a) ==> x in CanonEntries(b)
  {
    forall x | x in CanonEntries(a) ensures x in CanonEntries(b) {
      var i :| 0 <= i < |a| && x == CanonEntries(a)[i];
      assert HasKey(a, a[i].key);
      var j :| 0 <= j < |b| && b[j].key == a[i].key;
      assert CanonEntries(b)[j] == x;
    }
  }

  lemma {:induction false} InSame(a: seq<Entry>, b: seq<Entry>)
    requires DistinctKeys(b) && forall x :: x in CanonEntries(a) ==> x in CanonEntries(b)
    ensures forall key :: HasKey(a, key) ==> HasKey(b, key)
    ensures forall i, j :: 0 <= i < |a| && 0 <= j < |b| && a[i].key == b[j].key ==> Canon(a[i].value) == Canon(b[j].value)
  {
    forall i | 0 <= i < |a|
      ensures HasKey(b, a[i].key)
      ensures forall j :: 0 <= j < |b| && a[i].key == b[j].key ==> Canon(a[i].value) == Canon(b[j].value)
    {
      assert CanonEntries(a)[i] in CanonEntries(b);
      var k :| 0 <= k < |b| && CanonEntries(b)[k] == CanonEntries(a)[i];
      assert b[k].key == a[i].key;
    }
  }

  /** The central law: two values print to the same text exactly when they are equal up
    * to object key order. */
  lemma {:induction false} StableJsonExact(v: Json, w: Json)
    requires WellFormed(v) && WellFormed(w)
    ensures StableRuntimeJson(v) == StableRuntimeJson(w) <==> Same(v, w)
  {
    CanonExact(v, w);
    if StableRuntimeJson(v) == StableRuntimeJson(w) { PrintInjective(Canon(v), Canon(w)); }
  }

  lemma {:induction false} CanonIdempotent(v: Json)
    requires WellFormed(v)
    ensures Canon(Canon(v)) == Canon(v) && WellFormed(Canon(v))
    decreases v
  {
    match v
    case Arr(items) =>
      forall i | 0 <= i < |items| ensures Canon(Canon(items[i])) == Canon(items[i]) && WellFormed(Canon(items[i])) {
        CanonIdempotent(items[i]);
      }
      assert CanonItems(CanonItems(items)) == CanonItems(items);
    case Obj(entries) =>
      forall x | x in CanonEntries(entries) ensures Settled(x) {
        var i :| 0 <= i < |entries| && CanonEntries(entries)[i] == x;
        CanonIdempotent(entries[i].value);
      }
      ObjectIdempotent(CanonEntries(entries));
    case _ =>
  }

  lemma {:induction false} SortedDistinct(es: seq<Entry>)
    requires Sorted(es)
    ensures DistinctKeys(es) && Sort(es) == es
  {
    forall i, j | 0 <= i < j < |es| ensures es[i].key != es[j].key {
      BeforeTotal(es[i].key, es[i].key);
    }
    SortSorts(es);
    SortedUnique(Sort(es), es);
  }

  predicate Settled(e: Entry) { Canon(e.value) == e.value && WellFormed(e.value) }

  lemma {:induction false} SettledEntries(es: seq<Entry>)
    requires forall x :: x in es ==> Settled(x)
    ensures CanonEntries(es) == es
  {
    hide Canon, WellFormed;
    forall k | 0 <= k < |es| ensures CanonEntries(es)[k] == es[k] { assert Settled(es[k]); }
  }

  lemma {:induction false} ObjectIdempotent(ce: seq<Entry>)
    requires DistinctKeys(ce) && forall x :: x in ce ==> Settled(x)
    ensures Sort(CanonEntries(Sort(ce))) == Sort(ce) && WellFormed(Obj(Sort(ce)))
  {
    SortSorts(ce);
    SortedDistinct(Sort(ce));
    SettledEntries(Sort(ce));
    forall k | 0 <= k < |Sort(ce)| ensures WellFormed(Sort(ce)[k].value) {
      assert Settled(Sort(ce)[k]);
    }
  }

  /** The text reads back as the value it was printed from, up to key order, so every
    * own key is in it, whatever its name. */
  lemma {:induction false} StableJsonReadsBack(v: Json)
    requires WellFormed(v)
    ensures ParseValue(StableRuntimeJson(v)) == Some((Canon(v), []))
    ensures Same(v, Canon(v))
    ensures v.Obj? ==> Canon(v).Obj? && forall key :: HasKey(v.entries, key) <==> HasKey(Canon(v).entries, key)
  {
    PrintRoundTrip(Canon(v), []);
    assert Print(Canon(v)) + [] == Print(Canon(v));
    CanonIdempotent(v);
    CanonExact(v, Canon(v));
  }

  // ---- the order, by number ----

  function Pow(n: nat): nat { if n == 0 then 1 else 10 * Pow(n - 1) }

  /** The number that digits write. */
  function Value(a: Text): nat
    requires AllDigits(a)
  {
    if a == [] then 0 else (a[0] - 48) * Pow(|a| - 1) + Value(a[1..])
  }

  lemma {:induction false} FewerTimes(a: int, b: int, p: nat)
    requires a < b
    ensures a * p + p <= b * p
  {
    assert (a + 1) * p <= b * p;
  }

  lemma {:induction false} ValueBound(a: Text)
    requires AllDigits(a)
    ensures Value(a) < Pow(|a|)
  {
    if a != [] {
      ValueBound(a[1..]);
      FewerTimes(a[0] - 48, 10, Pow(|a| - 1));
    }
  }

  lemma {:induction false} PowGrows(m: nat, n: nat)
    requires m <= n
    ensures 1 <= Pow(m) <= Pow(n)
    decreases n
  {
    if m < n { PowGrows(m, n - 1); } else if n > 0 { PowGrows(m - 1, n - 1); }
  }

  lemma {:induction false} LexIsLess(a: Text, b: Text)
    requires AllDigits(a) && AllDigits(b) && |a| == |b|
    ensures Lex(a, b) <==> Value(a) < Value(b)
    ensures a == b <==> Value(a) == Value(b)
  {
    if a != [] {
      var p := Pow(|a| - 1);
      ValueBound(a[1..]);
      ValueBound(b[1..]);
      LexIsLess(a[1..], b[1..]);
      assert a == [a[0]] + a[1..] && b == [b[0]] + b[1..];
      if a[0] < b[0] { FewerTimes(a[0] - 48, b[0] - 48, p); }
      if b[0] < a[0] { FewerTimes(b[0] - 48, a[0] - 48, p); }
    }
  }

  lemma {:induction false} ShorterIsLess(a: Text, b: Text)
    requires AllDigits(a) && AllDigits(b) && |a| < |b| && b[0] != 48
    ensures Value(a) < Value(b)
  {
    ValueBound(a);
    PowGrows(|a|, |b| - 1);
    FewerTimes(0, b[0] - 48, Pow(|b| - 1));
  }

  lemma {:induction false} ValueNext(d: Unit, a: Text)
    requires IsDigit(d) && AllDigits(a)
    ensures AllDigits([d] + a) && Value([d] + a) == (d - 48) * Pow(|a|) + Value(a)
  {
    assert ([d] + a)[1..] == a;
  }

  lemma {:induction false} Powers()
    ensures Pow(0) == 1 && Pow(1) == 10 && Pow(2) == 100 && Pow(3) == 1000 && Pow(4) == 10_000 && Pow(5) == 100_000
    ensures Pow(6) == 1_000_000 && Pow(7) == 10_000_000 && Pow(8) == 100_000_000 && Pow(9) == 1_000_000_000
  {
    assert Pow(3) == 1000;
    assert Pow(6) == 1_000_000;
  }

  lemma {:induction false} LastDigits()
    ensures AllDigits([55, 50, 57, 52]) && Value([55, 50, 57, 52]) == 7294
  {
    hide Value, Pow, AllDigits;
    assert [52] + [] == [52] && [57] + [52] == [57, 52] && [50] + [57, 52] == [50, 57, 52] && [55] + [50, 57, 52] == [55, 50, 57, 52];
    Powers();
    NoDigits();
    ValueNext(52, []);
    ValueNext(57, [52]);
    ValueNext(50, [57, 52]);
    ValueNext(55, [50, 57, 52]);
  }

  lemma {:induction false} LowDigits()
    ensures AllDigits([57, 54, 55, 50, 57, 52]) && Value([57, 54, 55, 50, 57, 52]) == 967_294
  {
    hide Value, Pow, AllDigits;
    assert [54] + [55, 50, 57, 52] == [54, 55, 50, 57, 52] && [57] + [54, 55, 50, 57, 52] == [57, 54, 55, 50, 57, 52];
    Powers();
    LastDigits();
    ValueNext(54, [55, 50, 57, 52]);
    ValueNext(57, [54, 55, 50, 57, 52]);
  }

  lemma {:induction false} HighDigits()
    ensures AllDigits([57, 52, 57, 54, 55, 50, 57, 52]) && Value([57, 52, 57, 54, 55, 50, 57, 52]) == 94_967_294
  {
    hide Value, Pow, AllDigits;
    assert [52] + [57, 54, 55, 50, 57, 52] == [52, 57, 54, 55, 50, 57, 52];
    assert [57] + [52, 57, 54, 55, 50, 57, 52] == [57, 52, 57, 54, 55, 50, 57, 52];
    Powers();
    LowDigits();
    ValueNext(52, [57, 54, 55, 50, 57, 52]);
    ValueNext(57, [52, 57, 54, 55, 50, 57, 52]);
  }

  lemma {:induction false} MaxValue()
    ensures AllDigits(MAX_INDEX) && Value(MAX_INDEX) == 4_294_967_294
  {
    hide Value, Pow, AllDigits;
    assert [50] + [57, 52, 57, 54, 55, 50, 57, 52] == [50, 57, 52, 57, 54, 55, 50, 57, 52];
    assert [52] + [50, 57, 52, 57, 54, 55, 50, 57, 52] == MAX_INDEX;
    Powers();
    HighDigits();
    ValueNext(50, [57, 52, 57, 54, 55, 50, 57, 52]);
    ValueNext(52, [50, 57, 52, 57, 54, 55, 50, 57, 52]);
  }

  lemma {:induction false} NoDigits()
    ensures AllDigits([]) && Value([]) == 0
  {}

  /** An array index is a number up to 4294967294, written without leading zeros. */
  lemma {:induction false} IndexExact(a: Text)
    ensures IsIndex(a) <==> a != [] && AllDigits(a) && (|a| > 1 ==> a[0] != 48) && Value(a) <= 4_294_967_294
  {
    MaxValue();
    hide Value;
    if a != [] && AllDigits(a) && (|a| > 1 ==> a[0] != 48) {
      if |a| < |MAX_INDEX| { ShorterIsLess(a, MAX_INDEX); }
      else if |a| == |MAX_INDEX| { LexIsLess(a, MAX_INDEX); }
      else { ShorterIsLess(MAX_INDEX, a); }
    }
  }

  /** A rebuilt object lists its array indices first and by number, then its other keys by their code units. */
  lemma {:induction false} BeforeExact(a: Text, b: Text)
    ensures IsIndex(a) && IsIndex(b) ==> (Before(a, b) <==> Value(a) < Value(b))
    ensures IsIndex(a) && !IsIndex(b) ==> Before(a, b) && !Before(b, a)
    ensures !IsIndex(a) && !IsIndex(b) ==> (Before(a, b) <==> Lex(a, b))
  {
    if IsIndex(a) && IsIndex(b) {
      if |a| == |b| { LexIsLess(a, b); } else if |a| < |b| { ShorterIsLess(a, b); } else { ShorterIsLess(b, a); }
    }
  }
}
