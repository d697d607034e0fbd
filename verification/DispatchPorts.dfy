/** The in-memory state port and queue client, updated in place, and the value
  * each of them stands for in the protocol. */
module DispatchPorts {
  import opened Prelude
  import opened DispatchRecords
  import opened DispatchProtocol

  class MemoryState {
    var records: map<Reference, Record>

    constructor ()
      ensures records == map[]
    {
      records := map[];
    }

    method Create(record: Record) returns (created: bool)
      modifies this
      ensures created == (RefOf(record.task) !in old(records))
      ensures records == if created then old(records)[RefOf(record.task) := record] else old(records)
    {
      created := RefOf(record.task) !in records;
      if created { records := records[RefOf(record.task) := record]; }
    }

    function Get(ref: Reference): (r: Option<Record>)
      reads this
      ensures r.Some? <==> ref in records
      ensures r.Some? ==> records[ref] == r.value
    {
      if ref in records then Some(records[ref]) else Option.None
    }

    /** Applies the callback to the stored record, not to the one its caller read. */
    method CompareAndSwap(ref: Reference, expected: Identity, m: Mutation) returns (result: SwapResult)
      modifies this
      ensures result == Swap(old(records), ref, expected, m)
      ensures records == Store(old(records), ref, result)
      ensures result.Swapped? ==> ref in old(records) && SameDispatch(old(records)[ref], result.record)
    {
      if ref !in records { return Threw(MissingRecord); }
      var current := records[ref];
      if LeaseIdentity(current) != expected { return Refused; }
      match Guarded(m, current) {
        case Err(error) => return Threw(error);
        case Ok(next) =>
          records := records[ref := next];
          return Swapped(next);
      }
    }
  }

  datatype Message = Message(id: nat, item: Item)

  ghost predicate DistinctIds(ms: seq<Message>) {
    forall i, j :: 0 <= i < j < |ms| ==> ms[i].id != ms[j].id
  }

  /** The protocol's queue: message ids to items. */
  ghost function AsMap(ms: seq<Message>): (m: map<nat, Item>)
    requires DistinctIds(ms)
    ensures forall id :: id in m <==> exists i :: 0 <= i < |ms| && ms[i].id == id
    ensures forall i :: 0 <= i < |ms| ==> ms[i].id in m && m[ms[i].id] == ms[i].item
  {
    if ms == [] then map[] else AsMap(ms[..|ms| - 1])[ms[|ms| - 1].id := ms[|ms| - 1].item]
  }

  ghost predicate Holds(ms: seq<Message>, id: nat, item: Item) {
    exists i :: 0 <= i < |ms| && ms[i].id == id && ms[i].item == item
  }

  lemma {:induction false} SameMap(ms: seq<Message>, m: map<nat, Item>)
    requires DistinctIds(ms)
    requires forall i :: 0 <= i < |ms| ==> ms[i].id in m && m[ms[i].id] == ms[i].item
    requires forall id :: id in m ==> Holds(ms, id, m[id])
    ensures AsMap(ms) == m
  {}

  class MemoryQueueClient {
    var messages: seq<Message>
    var nextId: nat
    var poison: seq<Poison>

    ghost predicate Valid()
      reads this
    {
      DistinctIds(messages) && forall i :: 0 <= i < |messages| ==> messages[i].id < nextId
    }

    ghost function Queue(): map<nat, Item>
      requires Valid()
      reads this
    {
      AsMap(messages)
    }

    constructor ()
      ensures Valid() && Queue() == map[] && nextId == 0 && poison == []
    {
      messages, nextId, poison := [], 0, [];
    }

    /** The message with this id and this pop receipt, if the receipt is still its newest. */
    method Required(id: nat, receipt: PopReceipt) returns (at: Option<nat>)
      requires Valid()
      ensures at.Some? <==> Current(Queue(), id, receipt)
      ensures at.Some? ==> at.value < |messages| && messages[at.value].id == id && messages[at.value].item.receipt == receipt
    {
      for i := 0 to |messages|
        invariant forall j :: 0 <= j < i ==> !(messages[j].id == id && messages[j].item.receipt == receipt)
      {
        if messages[i].id == id && messages[i].item.receipt == receipt { return Some(i); }
      }
      return Option.None;
    }

    method SendMessage(payload: Payload)
      requires Valid()
      modifies this
      ensures Valid() && poison == old(poison) && nextId == old(nextId) + 1
      ensures Queue() == old(Queue())[old(nextId) := Item(payload, PopReceipt(0, 0), true)]
    {
      ghost var before := messages;
      messages := messages + [Message(nextId, Item(payload, PopReceipt(0, 0), true))];
      assert messages[..|messages| - 1] == before;
      nextId := nextId + 1;
    }

    /** Hands out the first visible message and hides it. */
    method ReceiveMessage() returns (d: Option<Delivery>)
      requires Valid()
      modifies this
      ensures Valid() && poison == old(poison) && nextId == old(nextId)
      ensures d.Some? <==> FirstVisible(old(messages)).Some?
      ensures d.None? ==> messages == old(messages)
      ensures d.Some? ==>
        && Some(d.value.id) == FirstVisible(old(messages))
        && d.value.id in old(Queue()) && old(Queue())[d.value.id].visible
        && d.value.payload == old(Queue())[d.value.id].payload
        && d.value.count == old(Queue())[d.value.id].receipt.count + 1
        && Queue() == old(Queue())[d.value.id := Item(d.value.payload, FirstReceipt(d.value), false)]
    {
      for i := 0 to |messages|
        invariant messages == old(messages)
        invariant FirstVisible(messages) == FirstVisible(messages[i..])
      {
        if messages[i].item.visible {
          var item := messages[i].item;
          var count := item.receipt.count + 1;
          ghost var target := Queue()[messages[i].id := Item(item.payload, PopReceipt(count, 0), false)];
          d := Some(Delivery(messages[i].id, count, item.payload));
          messages := messages[i := Message(messages[i].id, Item(item.payload, PopReceipt(count, 0), false))];
          Replaced(old(messages), messages, i, target);
          return;
        }
      }
      assert messages[|messages|..] == [];
      d := Option.None;
    }

    method UpdateMessage(id: nat, receipt: PopReceipt) returns (ok: bool)
      requires Valid()
      modifies this
      ensures Valid() && poison == old(poison) && nextId == old(nextId)
      ensures ok <==> Current(old(Queue()), id, receipt)
      ensures Queue() == if ok then old(Queue())[id := old(Queue())[id].(receipt := NextReceipt(receipt))] else old(Queue())
    {
      var at := Required(id, receipt);
      ok := at.Some?;
      if ok {
        var i := at.value;
        ghost var target := Queue()[id := Queue()[id].(receipt := NextReceipt(receipt))];
        messages := messages[i := Message(id, messages[i].item.(receipt := NextReceipt(receipt)))];
        Replaced(old(messages), messages, i, target);
      }
    }

    method DeleteMessage(id: nat, receipt: PopReceipt) returns (ok: bool)
      requires Valid()
      modifies this
      ensures Valid() && poison == old(poison) && nextId == old(nextId)
      ensures ok <==> Current(old(Queue()), id, receipt)
      ensures Queue() == if ok then old(Queue()) - {id} else old(Queue())
    {
      var at := Required(id, receipt);
      ok := at.Some?;
      if ok {
        ghost var target := Queue() - {id};
        messages := messages[..at.value] + messages[at.value + 1..];
        Removed(old(messages), messages, at.value, target);
      }
    }

    /** The visibility timeout of a message runs out. */
    method Expire(id: nat)
      requires Valid()
      modifies this
      ensures Valid() && poison == old(poison) && nextId == old(nextId)
      ensures Queue() == if id in old(Queue()) then old(Queue())[id := old(Queue())[id].(visible := true)] else old(Queue())
    {
      for i := 0 to |messages|
        invariant messages == old(messages) && forall j :: 0 <= j < i ==> messages[j].id != id
      {
        if messages[i].id == id {
          ghost var target := Queue()[id := Queue()[id].(visible := true)];
          messages := messages[i := Message(id, messages[i].item.(visible := true))];
          Replaced(old(messages), messages, i, target);
          return;
        }
      }
    }

    method SendPoisonMessage(p: Poison)
      requires Valid()
      modifies this
      ensures Valid() && messages == old(messages) && nextId == old(nextId) && Queue() == old(Queue())
      ensures poison == old(poison) + [p]
    {
      poison := poison + [p];
    }
  }

  /** The id of the first visible message. */
  function FirstVisible(ms: seq<Message>): Option<nat> {
    if ms == [] then Option.None
    else if ms[0].item.visible then Some(ms[0].id)
    else FirstVisible(ms[1..])
  }

  predicate FirstShown(ms: seq<Message>, i: nat) {
    i < |ms| && ms[i].item.visible && forall j :: 0 <= j < i ==> !ms[j].item.visible
  }

  /** There is one exactly if a message is visible, and then none before it is. */
  lemma {:induction false} FirstVisibleIs(ms: seq<Message>)
    ensures FirstVisible(ms).None? <==> forall i :: 0 <= i < |ms| ==> !ms[i].item.visible
    ensures forall i: nat :: FirstShown(ms, i) ==> FirstVisible(ms) == Some(ms[i].id)
  {
    if ms != [] {
      FirstVisibleIs(ms[1..]);
      assert forall i :: 0 < i < |ms| ==> ms[i] == ms[1..][i - 1];
      forall i: nat | FirstShown(ms, i) ensures FirstVisible(ms) == Some(ms[i].id) {
        if i > 0 { assert FirstShown(ms[1..], i - 1); }
      }
    }
  }

  lemma {:induction false} Replaced(ms: seq<Message>, after: seq<Message>, i: nat, target: map<nat, Item>)
    requires DistinctIds(ms) && i < |ms| && |after| == |ms| && after == ms[i := after[i]] && after[i].id == ms[i].id
    requires target == AsMap(ms)[ms[i].id := after[i].item]
    ensures DistinctIds(after) && AsMap(after) == target
  {
    forall id | id in target ensures Holds(after, id, target[id]) {
      var k :| 0 <= k < |ms| && ms[k].id == id;
      assert after[k].id == id && after[k].item == target[id];
    }
    SameMap(after, target);
  }

  function Source(i: nat, k: nat): nat { if k < i then k else k + 1 }

  lemma {:induction false} RemovedAt(ms: seq<Message>, after: seq<Message>, i: nat)
    requires i < |ms| && after == ms[..i] + ms[i + 1..]
    ensures |after| == |ms| - 1 && forall k :: 0 <= k < |after| ==> after[k] == ms[Source(i, k)]
  {}

  lemma {:induction false} Removed(ms: seq<Message>, after: seq<Message>, i: nat, target: map<nat, Item>)
    requires DistinctIds(ms) && i < |ms| && after == ms[..i] + ms[i + 1..]
    requires target == AsMap(ms) - {ms[i].id}
    ensures DistinctIds(after) && AsMap(after) == target
  {
    RemovedAt(ms, after, i);
    forall j, k | 0 <= j < k < |after| ensures after[j].id != after[k].id {
      assert Source(i, j) < Source(i, k);
    }
    forall k | 0 <= k < |after| ensures after[k].id in target && target[after[k].id] == after[k].item {
      assert ms[Source(i, k)].id != ms[i].id;
    }
    forall id | id in target ensures Holds(after, id, target[id]) {
      var k :| 0 <= k < |ms| && ms[k].id == id;
      assert k != i && Source(i, if k < i then k else k - 1) == k;
    }
    SameMap(after, target);
  }
}
