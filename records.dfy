/** The `ServerStatus` record and the loop that `all` and `search` share:
    each backend item is unmarshalled and appended to a slice that starts
    out nil; the first item that fails to unmarshal ends the process. */
module Records {
  import opened Base

  datatype Players = Players(online: Int64, max: Int64)

  /** One Minecraft server, as the table stores it. */
  datatype ServerStatus = ServerStatus(
    ip: string,
    version: string,
    online: bool,
    hostname: string,
    players: Players,
    time: string)

  /** What `dynamodbattribute.UnmarshalMap` makes of one backend item. */
  datatype Unmarshalled = Decoded(record: ServerStatus) | Undecodable(error: string)

  /** The state the loop leaves: the slice built, or the error of the item
      that stopped it. */
  datatype Collection = Collected(slice: GoSlice<ServerStatus>) | Stopped(error: string)

  /** The loop's meaning, item by item from the front: a left fold of
      `append` over the items, cut short by the first failure. */
  function Collect(items: seq<Unmarshalled>): Collection
    decreases |items|
  {
    if items == [] then Collected(Nil)
    else
      match Collect(items[..|items| - 1])
      case Stopped(e) => Stopped(e)
      case Collected(acc) =>
        match items[|items| - 1]
        case Decoded(r) => Collected(acc.Append(r))
        case Undecodable(e) => Stopped(e)
  }

  /** The collection loop of `all` and `search`. */
  method CollectItems(items: seq<Unmarshalled>) returns (c: Collection)
    ensures c == Collect(items)
  {
    var acc: GoSlice<ServerStatus> := Nil;
    var i := 0;
    while i < |items|
      invariant 0 <= i <= |items|
      invariant Collect(items[..i]) == Collected(acc)
    {
      assert items[..i + 1][..i] == items[..i];
      match items[i]
      case Undecodable(e) =>
        StoppedPersists(items, i + 1);
        return Stopped(e);
      case Decoded(r) =>
        acc := acc.Append(r);
      i := i + 1;
    }
    assert items[..i] == items;
    c := Collected(acc);
  }

  /** Once a prefix has stopped the loop, no later item changes the outcome. */
  lemma {:induction false} StoppedPersists(items: seq<Unmarshalled>, k: nat)
    requires k <= |items|
    requires Collect(items[..k]).Stopped?
    ensures Collect(items) == Collect(items[..k])
    decreases |items| - k
  {
    if k < |items| {
      assert items[..k + 1][..k] == items[..k];
      StoppedPersists(items, k + 1);
    } else {
      assert items[..k] == items;
    }
  }

  /** When every item unmarshals, the loop yields one record per item, in
      backend order, and the slice is nil exactly when there were no items. */
  lemma {:induction false} CollectAllDecoded(items: seq<Unmarshalled>)
    requires forall i :: 0 <= i < |items| ==> items[i].Decoded?
    ensures Collect(items).Collected?
    ensures |Collect(items).slice.Elems()| == |items|
    ensures forall i :: 0 <= i < |items| ==> Collect(items).slice.Elems()[i] == items[i].record
    ensures Collect(items).slice.Nil? <==> items == []
    decreases |items|
  {
    if items != [] {
      var front := items[..|items| - 1];
      CollectAllDecoded(front);
      var acc := Collect(front).slice;
      assert Collect(items).slice.Elems() == acc.Elems() + [items[|items| - 1].record];
    }
  }

  /** When some item fails to unmarshal, the loop stops with the error of
      the first such item. */
  lemma {:induction false} CollectFirstFailure(items: seq<Unmarshalled>, k: nat)
    requires k < |items| && items[k].Undecodable?
    requires forall j :: 0 <= j < k ==> items[j].Decoded?
    ensures Collect(items) == Stopped(items[k].error)
  {
    var front := items[..k];
    CollectAllDecoded(front);
    assert items[..k + 1][..k] == front;
    assert Collect(items[..k + 1]) == Stopped(items[k].error);
    StoppedPersists(items, k + 1);
  }
}
