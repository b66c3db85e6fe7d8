/**
 The report's grouping of notified orders: an insertion-ordered dictionary from
 the grouping key "code: description" to the orders filed under it, kept as a
 list of groups with distinct keys.
 */
module ProblemReport {
  import opened Records

  datatype Group = Group(key: string, orders: seq<OrderInfo>)

  /** The keys in dictionary order. */
  function Keys(groups: seq<Group>): (ks: seq<string>)
    ensures |ks| == |groups|
    ensures forall i :: 0 <= i < |groups| ==> ks[i] == groups[i].key
  {
    if groups == [] then [] else [groups[0].key] + Keys(groups[1..])
  }

  /** No key occurs twice, as in a dictionary. */
  predicate DistinctKeys(groups: seq<Group>)
  {
    forall i, j :: 0 <= i < j < |groups| ==> groups[i].key != groups[j].key
  }

  /** The orders filed under a key; none when the key is absent. */
  function OrdersOf(groups: seq<Group>, key: string): seq<OrderInfo>
  {
    if groups == [] then []
    else if groups[0].key == key then groups[0].orders
    else OrdersOf(groups[1..], key)
  }

  /** The number of orders over all groups. */
  function Total(groups: seq<Group>): nat
  {
    if groups == [] then 0 else |groups[0].orders| + Total(groups[1..])
  }

  /**
   Filing an order: the list under `key` is created at the end when the key is
   new, and the order is appended to it.
   */
  function File(groups: seq<Group>, key: string, order: OrderInfo): (filed: seq<Group>)
    // at most one group is added
    ensures |groups| <= |filed| <= |groups| + 1
  {
    if groups == [] then [Group(key, [order])]
    else if groups[0].key == key then [groups[0].(orders := groups[0].orders + [order])] + groups[1..]
    else [groups[0]] + File(groups[1..], key, order)
  }

  /** Filing adds the key last when it is new and otherwise keeps the keys. */
  lemma {:induction false} FileKeys(groups: seq<Group>, key: string, order: OrderInfo)
    ensures Keys(File(groups, key, order)) == if key in Keys(groups) then Keys(groups) else Keys(groups) + [key]
  {
    if groups != [] && groups[0].key != key {
      FileKeys(groups[1..], key, order);
      assert Keys(groups) == [groups[0].key] + Keys(groups[1..]);
    }
  }

  /** Filing into a dictionary keeps it a dictionary. */
  lemma FileDistinct(groups: seq<Group>, key: string, order: OrderInfo)
    requires DistinctKeys(groups)
    ensures DistinctKeys(File(groups, key, order))
  {
    var r := File(groups, key, order);
    FileKeys(groups, key, order);
    forall i, j | 0 <= i < j < |r| ensures r[i].key != r[j].key {
      assert Keys(r)[i] == r[i].key && Keys(r)[j] == r[j].key;
      if j < |groups| {
        assert Keys(groups)[i] == groups[i].key && Keys(groups)[j] == groups[j].key;
      } else {
        assert key !in Keys(groups);
        assert Keys(groups)[i] == groups[i].key;
      }
    }
  }

  /** On a dictionary, filing appends the order under its key and changes no other key. */
  lemma {:induction false} FileOrders(groups: seq<Group>, key: string, order: OrderInfo)
    requires DistinctKeys(groups)
    ensures OrdersOf(File(groups, key, order), key) == OrdersOf(groups, key) + [order]
    ensures forall k :: k != key ==> OrdersOf(File(groups, key, order), k) == OrdersOf(groups, k)
  {
    if groups == [] {
    } else if groups[0].key == key {
      AbsentFromRest(groups);
    } else {
      FileOrders(groups[1..], key, order);
    }
  }

  /** Filing adds one order to the total. */
  lemma {:induction false} FileTotal(groups: seq<Group>, key: string, order: OrderInfo)
    ensures Total(File(groups, key, order)) == Total(groups) + 1
  {
    if groups != [] && groups[0].key != key {
      FileTotal(groups[1..], key, order);
    }
  }

  /** In a dictionary the first key does not occur again. */
  lemma AbsentFromRest(groups: seq<Group>)
    requires DistinctKeys(groups) && groups != []
    ensures forall k :: k != groups[0].key ==> OrdersOf(groups, k) == OrdersOf(groups[1..], k)
    ensures groups[0].key !in Keys(groups[1..])
    ensures OrdersOf(groups[1..], groups[0].key) == []
  {
    NotInKeys(groups[1..], groups[0].key);
  }

  /** A key that is not in the dictionary has no orders. */
  lemma {:induction false} NotInKeys(groups: seq<Group>, key: string)
    requires key !in Keys(groups)
    ensures OrdersOf(groups, key) == []
  {
    if groups != [] {
      assert Keys(groups)[0] == groups[0].key;
      assert Keys(groups[1..]) == Keys(groups)[1..];
      NotInKeys(groups[1..], key);
    }
  }

  /** The dictionary after filing the notices in order. */
  function GroupAll(notices: seq<Notice>): seq<Group>
  {
    if notices == [] then []
    else
      var last := notices[|notices| - 1];
      File(GroupAll(notices[..|notices| - 1]), last.group, last.order)
  }

  /** The orders of the notices filed under `key`, in filing order. */
  function FiledUnder(notices: seq<Notice>, key: string): seq<OrderInfo>
  {
    if notices == [] then []
    else
      var last := notices[|notices| - 1];
      FiledUnder(notices[..|notices| - 1], key) + (if last.group == key then [last.order] else [])
  }

  /** The distinct keys of the notices, in order of first appearance. */
  function FirstSeen(notices: seq<Notice>): seq<string>
  {
    if notices == [] then []
    else
      var last := notices[|notices| - 1];
      var earlier := FirstSeen(notices[..|notices| - 1]);
      if last.group in earlier then earlier else earlier + [last.group]
  }

  /** The grouping is a dictionary: no key occurs twice. */
  lemma {:induction false} GroupAllDistinct(notices: seq<Notice>)
    ensures DistinctKeys(GroupAll(notices))
  {
    if notices != [] {
      var last := notices[|notices| - 1];
      GroupAllDistinct(notices[..|notices| - 1]);
      FileDistinct(GroupAll(notices[..|notices| - 1]), last.group, last.order);
    }
  }

  /** Every notice is counted once: the problem total equals the number of notices. */
  lemma {:induction false} GroupAllTotal(notices: seq<Notice>)
    ensures Total(GroupAll(notices)) == |notices|
  {
    if notices != [] {
      var last := notices[|notices| - 1];
      FileTotal(GroupAll(notices[..|notices| - 1]), last.group, last.order);
      GroupAllTotal(notices[..|notices| - 1]);
    }
  }

  /** Each key lists exactly the orders filed under it, in filing order. */
  lemma {:induction false} GroupAllOrders(notices: seq<Notice>, key: string)
    ensures OrdersOf(GroupAll(notices), key) == FiledUnder(notices, key)
  {
    if notices != [] {
      var last := notices[|notices| - 1];
      GroupAllDistinct(notices[..|notices| - 1]);
      FileOrders(GroupAll(notices[..|notices| - 1]), last.group, last.order);
      GroupAllOrders(notices[..|notices| - 1], key);
    }
  }

  /** The keys appear in order of their first notice. */
  lemma {:induction false} GroupAllKeys(notices: seq<Notice>)
    ensures Keys(GroupAll(notices)) == FirstSeen(notices)
  {
    if notices != [] {
      var last := notices[|notices| - 1];
      FileKeys(GroupAll(notices[..|notices| - 1]), last.group, last.order);
      GroupAllKeys(notices[..|notices| - 1]);
    }
  }
}
