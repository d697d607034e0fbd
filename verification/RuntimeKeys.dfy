/** The keys of the in-memory runtime store: scope JSON, NUL, id. */
module RuntimeKeys {
  import opened Prelude
  import opened JsonText

  const NUL: Unit := 0

  function KeyText(scope: Json, id: Text): Text { Print(scope) + [NUL] + id }

  predicate NoNul(t: Text) { forall i :: 0 <= i < |t| ==> t[i] != NUL }

  lemma {:induction false} EscapeNoNul(c: Unit)
    ensures NoNul(Escape(c))
  {}

  lemma {:induction false} QuotedNoNul(s: Text)
    ensures NoNul(Quoted(s))
  {
    if Paired(s) {
      QuotedNoNul(s[2..]);
    } else if s != [] {
      EscapeNoNul(s[0]);
      QuotedNoNul(s[1..]);
    }
  }

  lemma {:induction false} NumNoNul(n: Decimal)
    ensures NoNul(NumText(n))
  {
    hide Digits;
  }

  /** JSON text never holds a NUL, because strings escape control characters. */
  lemma {:induction false} PrintNoNul(v: Json)
    ensures NoNul(Print(v))
    decreases v, 0
  {
    hide NumText, Quoted;
    match v
    case Num(n) => NumNoNul(n);
    case Str(s) => QuotedNoNul(s);
    case Arr(items) => ItemsNoNul(items);
    case Obj(entries) => EntriesNoNul(entries);
    case _ =>
  }

  lemma {:induction false} ItemsNoNul(items: seq<Json>)
    ensures NoNul(PrintItems(items))
    decreases items, 1
  {
    if items != [] {
      PrintNoNul(items[0]);
      ItemsNoNul(items[1..]);
    }
  }

  lemma {:induction false} EntriesNoNul(entries: seq<Entry>)
    ensures NoNul(PrintEntries(entries))
    decreases entries, 1
  {
    if entries != [] {
      QuotedNoNul(entries[0].key);
      PrintNoNul(entries[0].value);
      EntriesNoNul(entries[1..]);
    }
  }

  /** The first NUL of a key ends its scope, so a prefix of a key that ends in NUL is its scope. */
  lemma {:induction false} SplitAtNul(a: Text, b: Text, x: Text, y: Text)
    requires NoNul(a) && NoNul(b) && a + [NUL] + x == b + [NUL] + y
    ensures a == b && x == y
  {
    var t := a + [NUL] + x;
    assert t[|a|] == NUL && (b + [NUL] + y)[|b|] == NUL;
    assert |a| == |b|;
    assert t[..|a|] == a && (b + [NUL] + y)[..|b|] == b;
    assert t[|a| + 1..] == x && (b + [NUL] + y)[|b| + 1..] == y;
  }

  /** Different scopes or different ids, whatever the id contains, have different keys. */
  lemma {:induction false} KeyInjective(scope: Json, id: Text, other: Json, otherId: Text)
    ensures KeyText(scope, id) == KeyText(other, otherId) <==> scope == other && id == otherId
  {
    if KeyText(scope, id) == KeyText(other, otherId) {
      PrintNoNul(scope);
      PrintNoNul(other);
      SplitAtNul(Print(scope), Print(other), id, otherId);
      PrintInjective(scope, other);
    }
  }

  function Prefix(scope: Json): Text { Print(scope) + [NUL] }

  /** A key carries the prefix of a scope exactly when it was made for that scope. */
  lemma {:induction false} PrefixExact(scope: Json, other: Json, id: Text)
    ensures Prefix(scope) <= KeyText(other, id) <==> scope == other
  {
    var key := KeyText(other, id);
    if Prefix(scope) <= key {
      PrintNoNul(scope);
      PrintNoNul(other);
      var rest := key[|Prefix(scope)|..];
      assert key == Print(scope) + [NUL] + rest;
      SplitAtNul(Print(scope), Print(other), rest, id);
      PrintInjective(scope, other);
    }
    if scope == other { assert key[..|Prefix(scope)|] == Prefix(scope); }
  }

  // ---- a scope object is told apart by the order of its own keys ----

  datatype Field = Field(name: Text, value: Text)

  function ScopeObject(fields: seq<Field>): Json {
    Obj(seq(|fields|, i requires 0 <= i < |fields| => Entry(fields[i].name, Str(fields[i].value))))
  }

  /** Two scope objects share their keys exactly when they list the same fields in the same order. */
  lemma {:induction false} ScopeOrderMatters(fields: seq<Field>, other: seq<Field>, id: Text)
    ensures KeyText(ScopeObject(fields), id) == KeyText(ScopeObject(other), id) <==> fields == other
  {
    KeyInjective(ScopeObject(fields), id, ScopeObject(other), id);
    if ScopeObject(fields) == ScopeObject(other) {
      forall i | 0 <= i < |fields| ensures |other| == |fields| && fields[i] == other[i] {
        assert ScopeObject(fields).entries[i] == ScopeObject(other).entries[i];
      }
      assert |ScopeObject(fields).entries| == |ScopeObject(other).entries|;
    }
  }

  // ---- the store ----

  datatype Stored<V> = Stored(id: Text, value: V, etag: nat)

  class MemoryRuntimeStore<V> {
    var order: seq<Text>                     // insertion order of the keys
    var records: map<Text, Stored<V>>
    var revision: nat
    ghost var written: map<Text, (Json, Text)>   // the scope and id behind every key

    ghost predicate Valid()
      reads this
    {
      && (forall k :: k in order <==> k in records)
      && records.Keys == written.Keys
      && (forall k :: k in records ==> k == KeyText(written[k].0, written[k].1) && records[k].id == written[k].1)
    }

    constructor ()
      ensures Valid() && records == map[] && written == map[]
    {
      order, records, revision, written := [], map[], 0, map[];
    }

    /** The record written under this very scope and id, or nothing. */
    method Read(scope: Json, id: Text) returns (r: Option<Stored<V>>)
      requires Valid()
      ensures r.Some? <==> exists k :: k in written && written[k] == (scope, id)
      ensures r.Some? ==> KeyText(scope, id) in records && records[KeyText(scope, id)] == r.value && r.value.id == id
    {
      var key := KeyText(scope, id);
      r := if key in records then Some(records[key]) else None;
      if key in records { KeyInjective(written[key].0, written[key].1, scope, id); }
    }

    /** Exactly the records written under this scope, in insertion order. */
    method List(scope: Json) returns (keys: seq<Text>, r: seq<Stored<V>>)
      requires Valid()
      ensures |r| == |keys| && forall i :: 0 <= i < |r| ==> keys[i] in records && r[i] == records[keys[i]]
      ensures forall k :: k in keys <==> k in written && written[k].0 == scope
      ensures keys == Filtered(order, Prefix(scope))
    {
      keys, r := [], [];
      for n := 0 to |order|
        invariant |r| == |keys| && forall i :: 0 <= i < |r| ==> keys[i] in records && r[i] == records[keys[i]]
        invariant keys == Filtered(order[..n], Prefix(scope))
      {
        assert order[..n + 1][..n] == order[..n];
        if Prefix(scope) <= order[n] {
          assert order[n] in order;
          keys := keys + [order[n]];
          r := r + [records[order[n]]];
        }
      }
      assert order[..|order|] == order;
      FilteredExact(order, Prefix(scope));
      forall k ensures k in keys <==> k in written && written[k].0 == scope {
        if k in written { PrefixExact(scope, written[k].0, written[k].1); }
      }
    }

    /** A write against the newest ETag, or a create; anything else conflicts and changes nothing. */
    method Write(scope: Json, id: Text, value: V, expectedEtag: Option<nat>) returns (r: Option<Stored<V>>)
      requires Valid()
      modifies this
      ensures Valid()
      ensures var key := KeyText(scope, id);
        r.Some? <==> (if key in old(records) then expectedEtag == Some(old(records)[key].etag) else expectedEtag.None?)
      ensures r.None? ==> records == old(records) && written == old(written) && order == old(order) && revision == old(revision)
      ensures r.Some? ==> r.value == Stored(id, value, old(revision) + 1) && revision == old(revision) + 1
      ensures r.Some? ==> records == old(records)[KeyText(scope, id) := r.value]
      ensures r.Some? ==> written == old(written)[KeyText(scope, id) := (scope, id)]
    {
      var key := KeyText(scope, id);
      if key in records && expectedEtag != Some(records[key].etag) { return None; }
      if key !in records && expectedEtag.Some? { return None; }
      revision := revision + 1;
      var record := Stored(id, value, revision);
      if key !in records { order := order + [key]; }
      records := records[key := record];
      written := written[key := (scope, id)];
      return Some(record);
    }
  }

  function Filtered(order: seq<Text>, prefix: Text): seq<Text> {
    if order == [] then []
    else Filtered(order[..|order| - 1], prefix) + (if prefix <= order[|order| - 1] then [order[|order| - 1]] else [])
  }

  lemma {:induction false} FilteredExact(order: seq<Text>, prefix: Text)
    ensures forall k :: k in Filtered(order, prefix) <==> k in order && prefix <= k
  {
    if order != [] {
      FilteredExact(order[..|order| - 1], prefix);
      assert order == order[..|order| - 1] + [order[|order| - 1]];
    }
  }
}
