// The name/value-pair builder used to assemble HTTP form parameters.
//
// A builder owns one linked list of pairs; `and` appends to that list in place and hands
// back the same builder, and `build` hands out the list itself rather than a copy, so a
// list obtained from `build` keeps growing with every later `and` on its builder.

module NvpBuilder {

  datatype NameValuePair = NameValuePair(name: string, value: string)

  /** The builder's `LinkedList<NameValuePair>`: a mutable sequence of pairs. */
  class PairList {
    var items: seq<NameValuePair>

    constructor ()
      ensures items == []
    {
      items := [];
    }

    /** `List.add`: one pair at the end. */
    method Add(p: NameValuePair)
      modifies this
      ensures items == old(items) + [p]
    {
      items := items + [p];
    }
  }

  class NVPBuilder {
    /** The list the builder appends to; the reference never changes. */
    const nvps: PairList

    constructor ()
      ensures fresh(nvps) && nvps.items == []
    {
      nvps := new PairList();
    }

    /** `identity()`: the list of a new builder, empty. */
    static method Identity() returns (list: PairList)
      ensures fresh(list) && list.items == []
    {
      var builder := new NVPBuilder();
      list := builder.Build();
    }

    /** `withParam(name, value)`: a new builder holding exactly that one pair. */
    static method WithParam(name: string, value: string) returns (builder: NVPBuilder)
      ensures fresh(builder) && fresh(builder.nvps)
      ensures builder.nvps.items == [NameValuePair(name, value)]
    {
      var b := new NVPBuilder();
      builder := b.And(name, value);
    }

    /** `and(name, value)`: appends one pair after the earlier ones and returns this same builder. */
    method And(name: string, value: string) returns (self: NVPBuilder)
      modifies nvps
      ensures self == this
      ensures nvps.items == old(nvps.items) + [NameValuePair(name, value)]
    {
      nvps.Add(NameValuePair(name, value));
      self := this;
    }

    /** `build()`: the builder's own list, not a copy. */
    method Build() returns (list: PairList)
      ensures list == nvps
    {
      list := nvps;
    }
  }

  /**
   * `withParam(a).and(b).and(c).build()`: because `and` returns the same builder, the
   * chained calls accumulate, in call order, on one list.
   */
  method ChainedParams(a: NameValuePair, b: NameValuePair, c: NameValuePair) returns (pairs: seq<NameValuePair>)
    ensures pairs == [a, b, c]
  {
    var builder := NVPBuilder.WithParam(a.name, a.value);
    builder := builder.And(b.name, b.value);
    builder := builder.And(c.name, c.value);
    var list := builder.Build();
    pairs := list.items;
  }

  /**
   * A list taken from `build` is the live list: a later `and` on the same builder shows
   * through it, so what it held before and what it holds after differ.
   */
  method BuiltListSeesLaterAnd(first: NameValuePair, second: NameValuePair)
    returns (before: seq<NameValuePair>, after: seq<NameValuePair>)
    ensures before == [first]
    ensures after == [first, second]
    ensures before != after
  {
    var builder := NVPBuilder.WithParam(first.name, first.value);
    var list := builder.Build();
    before := list.items;
    var same := builder.And(second.name, second.value);
    after := list.items;
    assert |before| != |after|;
  }
}
