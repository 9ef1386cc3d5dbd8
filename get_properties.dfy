/**
  What the get node promises, proved about module Get: `getMembers` returns
  exactly the transitively nested members keyed by name with later keys
  winning, the reduced payload is keyed by item name, members are merged
  only when asked for, and the input rules for choosing, sanitising and
  requesting items.
*/
module GetProperties {
  import opened Wrappers
  import opened JsValues
  import opened Utility
  import opened Get

  // ---------------------------------------------------------------------------
  // Keying a list of items by name
  // ---------------------------------------------------------------------------

  /** The object `{...}` that spreads each item of `s` in turn under its name. */
  function MapOf(s: seq<Item>): map<string, Item>
    decreases |s|
  {
    if s == [] then map[] else MapOf(s[..|s| - 1])[s[|s| - 1].name := s[|s| - 1]]
  }

  lemma {:induction false} MapOfAppend(a: seq<Item>, b: seq<Item>)
    ensures MapOf(a + b) == MapOf(a) + MapOf(b)
    decreases |b|
  {
    if b == [] {
      assert a + b == a;
    } else {
      var x := b[|b| - 1];
      var b' := b[..|b| - 1];
      assert (a + b)[..|a + b| - 1] == a + b';
      assert (a + b)[|a + b| - 1] == x;
      MapOfAppend(a, b');
    }
  }

  lemma MapOfSingle(x: Item)
    ensures MapOf([x]) == map[x.name := x]
  {
    assert [x][..0] == [];
  }

  /** A name is a key exactly when some item carries it. */
  lemma {:induction false} MapOfKeys(s: seq<Item>, k: string)
    ensures k in MapOf(s) <==> exists i :: 0 <= i < |s| && s[i].name == k
    decreases |s|
  {
    if s != [] {
      var p := s[..|s| - 1];
      MapOfKeys(p, k);
      if exists i :: 0 <= i < |p| && p[i].name == k {
        var i :| 0 <= i < |p| && p[i].name == k;
        assert s[i] == p[i];
      }
      if exists i :: 0 <= i < |s| && s[i].name == k {
        var i :| 0 <= i < |s| && s[i].name == k;
        if i < |p| {
          assert p[i] == s[i];
        }
      }
    }
  }

  /** Later keys win: a name maps to the last item that carries it. */
  lemma {:induction false} MapOfLastWins(s: seq<Item>, i: int)
    requires 0 <= i < |s|
    requires forall j :: i < j < |s| ==> s[j].name != s[i].name
    ensures s[i].name in MapOf(s) && MapOf(s)[s[i].name] == s[i]
    decreases |s|
  {
    if i < |s| - 1 {
      var p := s[..|s| - 1];
      assert p[i] == s[i];
      MapOfLastWins(p, i);
    }
  }

  /** Every value is one of the items, under its own name. */
  lemma {:induction false} MapOfValues(s: seq<Item>, k: string)
    requires k in MapOf(s)
    ensures MapOf(s)[k] in s && MapOf(s)[k].name == k
    decreases |s|
  {
    if s[|s| - 1].name != k {
      var p := s[..|s| - 1];
      MapOfValues(p, k);
      assert MapOf(p)[k] in p;
    }
  }

  // ---------------------------------------------------------------------------
  // Group members
  // ---------------------------------------------------------------------------

  /** `d` is nested somewhere below `obj`, through array-valued `members` only. */
  predicate Descendant(d: Item, obj: Item)
    decreases obj
  {
    obj.members.MemberList?
    && exists j :: 0 <= j < |obj.members.list|
         && (d == obj.members.list[j] || Descendant(d, obj.members.list[j]))
  }

  /** The nested members of `obj` in the order `getMembers` visits them. */
  function Nested(obj: Item): seq<Item>
    decreases obj, 1, 0
  {
    match obj.members
    case NotAList => []
    case MemberList(ms) => NestedPrefix(obj, |ms|)
  }

  function NestedPrefix(obj: Item, n: nat): seq<Item>
    requires obj.members.MemberList? && n <= |obj.members.list|
    decreases obj, 0, n
  {
    if n == 0 then []
    else
      var m := obj.members.list[n - 1];
      NestedPrefix(obj, n - 1) + [m] + Nested(m)
  }

  /** `getMembers` keys the nested members by name, later ones winning. */
  lemma {:induction false} GetMembersIsMapOfNested(obj: Item)
    ensures GetMembers(obj) == MapOf(Nested(obj))
    decreases obj, 1, 0
  {
    if obj.members.MemberList? {
      SpreadIsMapOfPrefix(obj, |obj.members.list|);
    }
  }

  lemma {:induction false} SpreadIsMapOfPrefix(obj: Item, n: nat)
    requires obj.members.MemberList? && n <= |obj.members.list|
    ensures SpreadMembers(obj, n) == MapOf(NestedPrefix(obj, n))
    decreases obj, 0, n
  {
    if n > 0 {
      var m := obj.members.list[n - 1];
      var p := NestedPrefix(obj, n - 1);
      SpreadIsMapOfPrefix(obj, n - 1);
      GetMembersIsMapOfNested(m);
      MapOfAppend(p + [m], Nested(m));
      MapOfAppend(p, [m]);
      MapOfSingle(m);
    }
  }

  /** The visit order holds every nested member and nothing else. */
  lemma {:induction false} NestedIsDescendants(obj: Item, d: Item)
    ensures d in Nested(obj) <==> Descendant(d, obj)
    decreases obj, 1, 0
  {
    if obj.members.MemberList? {
      NestedPrefixIsDescendants(obj, |obj.members.list|, d);
    }
  }

  lemma {:induction false} NestedPrefixIsDescendants(obj: Item, n: nat, d: Item)
    requires obj.members.MemberList? && n <= |obj.members.list|
    ensures d in NestedPrefix(obj, n) <==>
      exists j :: 0 <= j < n && (d == obj.members.list[j] || Descendant(d, obj.members.list[j]))
    decreases obj, 0, n
  {
    var ms := obj.members.list;
    if n > 0 {
      var m := ms[n - 1];
      NestedPrefixIsDescendants(obj, n - 1, d);
      NestedIsDescendants(m, d);
      if d in NestedPrefix(obj, n) {
        if d in NestedPrefix(obj, n - 1) {
          var j :| 0 <= j < n - 1 && (d == ms[j] || Descendant(d, ms[j]));
          assert 0 <= j < n;
        } else {
          assert d == m || d in Nested(m);
          assert 0 <= n - 1 < n && (d == ms[n - 1] || Descendant(d, ms[n - 1]));
        }
      }
      if exists j :: 0 <= j < n && (d == ms[j] || Descendant(d, ms[j])) {
        var j :| 0 <= j < n && (d == ms[j] || Descendant(d, ms[j]));
        if j < n - 1 {
          assert d in NestedPrefix(obj, n - 1);
        } else {
          assert d == m || d in Nested(m);
        }
      }
    }
  }

  /** `getMembers` holds a key exactly for the names of the nested members,
      each under a nested member of that name; a member list that is not an
      array contributes nothing. */
  lemma GetMembersKeys(obj: Item, k: string)
    ensures k in GetMembers(obj) <==> exists d :: Descendant(d, obj) && d.name == k
    ensures k in GetMembers(obj) ==> GetMembers(obj)[k].name == k && Descendant(GetMembers(obj)[k], obj)
    ensures obj.members.NotAList? ==> GetMembers(obj) == map[]
  {
    var s := Nested(obj);
    GetMembersIsMapOfNested(obj);
    MapOfKeys(s, k);
    if k in GetMembers(obj) {
      var i :| 0 <= i < |s| && s[i].name == k;
      NestedIsDescendants(obj, s[i]);
      MapOfValues(s, k);
      NestedIsDescendants(obj, GetMembers(obj)[k]);
    }
    if exists d :: Descendant(d, obj) && d.name == k {
      var d :| Descendant(d, obj) && d.name == k;
      NestedIsDescendants(obj, d);
      var i :| 0 <= i < |s| && s[i] == d;
    }
  }

  // ---------------------------------------------------------------------------
  // The reduced payload
  // ---------------------------------------------------------------------------

  /** The items in the order `reduce` spreads them, each followed by its
      nested members when those are wanted. */
  function Expand(items: seq<Item>, getGroupMembers: bool): seq<Item>
    decreases |items|
  {
    if items == [] then []
    else
      var item := items[|items| - 1];
      Expand(items[..|items| - 1], getGroupMembers) + [item] + (if getGroupMembers then Nested(item) else [])
  }

  lemma {:induction false} ReduceIsMapOfExpand(items: seq<Item>, getGroupMembers: bool)
    ensures Reduce(items, getGroupMembers) == MapOf(Expand(items, getGroupMembers))
    decreases |items|
  {
    if items != [] {
      var item := items[|items| - 1];
      var p := Expand(items[..|items| - 1], getGroupMembers);
      var tail := if getGroupMembers then Nested(item) else [];
      ReduceIsMapOfExpand(items[..|items| - 1], getGroupMembers);
      GetMembersIsMapOfNested(item);
      MapOfAppend(p + [item], tail);
      MapOfAppend(p, [item]);
      MapOfSingle(item);
    }
  }

  lemma {:induction false} ExpandWithoutMembers(items: seq<Item>)
    ensures Expand(items, false) == items
    decreases |items|
  {
    if items != [] {
      ExpandWithoutMembers(items[..|items| - 1]);
    }
  }

  /** Without group members the payload is keyed by the fetched items' names
      alone. */
  lemma PayloadWithoutMembers(items: seq<Item>, k: string)
    ensures k in Reduce(items, false) <==> exists i :: 0 <= i < |items| && items[i].name == k
  {
    ReduceIsMapOfExpand(items, false);
    ExpandWithoutMembers(items);
    MapOfKeys(items, k);
  }

  /** A name shared by several fetched items maps to the last of them. */
  lemma LastItemWins(items: seq<Item>, i: int)
    requires 0 <= i < |items|
    requires forall j :: i < j < |items| ==> items[j].name != items[i].name
    ensures items[i].name in Reduce(items, false) && Reduce(items, false)[items[i].name] == items[i]
  {
    ReduceIsMapOfExpand(items, false);
    ExpandWithoutMembers(items);
    MapOfLastWins(items, i);
  }

  /** With group members every fetched item and every member nested in one
      is in the payload under its name. */
  lemma {:induction false} PayloadWithMembers(items: seq<Item>, i: int, d: Item)
    requires 0 <= i < |items|
    requires d == items[i] || Descendant(d, items[i])
    ensures d.name in Reduce(items, true)
    decreases |items|
  {
    ReduceIsMapOfExpand(items, true);
    var e := Expand(items, true);
    ExpandHolds(items, i, d);
    var k :| 0 <= k < |e| && e[k] == d;
    MapOfKeys(e, d.name);
  }

  lemma {:induction false} ExpandHolds(items: seq<Item>, i: int, d: Item)
    requires 0 <= i < |items|
    requires d == items[i] || Descendant(d, items[i])
    ensures d in Expand(items, true)
    decreases |items|
  {
    var last := items[|items| - 1];
    if i < |items| - 1 {
      ExpandHolds(items[..|items| - 1], i, d);
    } else if d != last {
      NestedIsDescendants(last, d);
    }
  }

  /** A member that shares a name with a fetched item displaces the item
      spread before it. */
  lemma MemberOverridesItem(item: Item, member: Item)
    requires item.members == MemberList([member]) && member.name == item.name && member.members.NotAList?
    ensures Reduce([item], true) == map[item.name := member]
    ensures Reduce([item], false) == map[item.name := item]
  {
    assert [item][..0] == [];
    assert GetMembers(member) == map[];
    assert SpreadMembers(item, 1) == map[] + map[member.name := member] + map[];
    assert GetMembers(item) == map[item.name := member];
  }

  // ---------------------------------------------------------------------------
  // Choosing and sanitising the items
  // ---------------------------------------------------------------------------

  /** With overriding allowed the first truthy of `payload.items`,
      `payload.item` and the node's items is used. */
  lemma SelectionOrder(payload: JsValue, nodeItems: JsValue)
    requires !IsNullish(payload)
    ensures var r := SelectItems(true, payload, nodeItems).value;
      && (Truthy(Field(payload, "items")) ==> r == Field(payload, "items"))
      && (!Truthy(Field(payload, "items")) && Truthy(Field(payload, "item")) ==> r == Field(payload, "item"))
      && (!Truthy(Field(payload, "items")) && !Truthy(Field(payload, "item")) ==> r == nodeItems)
  {
  }

  /** `every` stops early: an element without item before a null makes the
      array invalid without throwing; a null first makes it throw. */
  lemma NullAfterMissingItem()
    ensures Sanitise(Arr([Obj(map[]), Null])) == Ok([])
    ensures Sanitise(Arr([Null, Obj(map[])])) == Err(TypeError)
  {
    assert EveryHasItem([Obj(map[]), Null]) == Ok(false);
    assert [Null, Obj(map[])][1..] == [Obj(map[])];
  }

  /** A mixed array of names and records is discarded. */
  lemma MixedArrayDiscarded(name: string, record: JsValue)
    requires record.Obj?
    ensures Sanitise(Arr([Str(name), record])) == Ok([])
  {
    assert ![Str(name), record][1].Str?;
    assert !IsObjectTyped([Str(name), record][0]);
  }

  // ---------------------------------------------------------------------------
  // One input
  // ---------------------------------------------------------------------------

  function PayloadOf(message: map<string, JsValue>): JsValue {
    if "payload" in message then message["payload"] else Undefined
  }

  /** Falsy items make no request and send nothing. */
  lemma FalsyItemsDoNothing(cfg: Config, s: GetState, message: map<string, JsValue>, settled: Result<seq<Item>, JsValue>)
    requires SelectItems(cfg.allowItemOverride, PayloadOf(message), cfg.items).Ok?
    requires !Truthy(SelectItems(cfg.allowItemOverride, PayloadOf(message), cfg.items).value)
    ensures InputStep(cfg, true, s, message, settled) == Outcome(s, false)
  {
  }

  /** The input gets as far as the requests: the items are chosen without an
      error, are truthy and sanitise without an error. */
  predicate MakesRequests(cfg: Config, message: map<string, JsValue>) {
    var selected := SelectItems(cfg.allowItemOverride, PayloadOf(message), cfg.items);
    selected.Ok? && Truthy(selected.value) && Sanitise(selected.value).Ok?
  }

  /** One request per sanitised entry, in order, naming the entry's item. */
  lemma RequestsInOrder(cfg: Config, s: GetState, message: map<string, JsValue>, settled: Result<seq<Item>, JsValue>)
    requires MakesRequests(cfg, message)
    ensures var items := SelectItems(cfg.allowItemOverride, PayloadOf(message), cfg.items).value;
      var entries := Sanitise(items).value;
      var r := InputStep(cfg, true, s, message, settled);
      && !r.threw
      && r.state.requests == s.requests + ItemNames(entries)
      && forall i :: 0 <= i < |entries| ==> ItemNames(entries)[i] != Undefined
  {
  }

  /** As written, no request is ever made: an input that would make one
      throws instead and leaves the node as it was, and an input that
      sanitises to an empty list sends the empty payload the intended
      handler sends. */
  lemma GetItemThrowsAsWritten(cfg: Config, s: GetState, message: map<string, JsValue>)
    ensures InputStepAsWritten(cfg, true, s, message).state.requests == s.requests
    ensures MakesRequests(cfg, message) ==>
      var entries := Sanitise(SelectItems(cfg.allowItemOverride, PayloadOf(message), cfg.items).value).value;
      && (entries != [] ==> InputStepAsWritten(cfg, true, s, message) == Outcome(s, true))
      && (entries == [] ==> InputStepAsWritten(cfg, true, s, message) == InputStep(cfg, true, s, message, Ok([])))
  {
  }

  /** A configured item name, with no override, throws on every input. */
  lemma ConfiguredNameThrowsAsWritten(cfg: Config, s: GetState, message: map<string, JsValue>, name: string)
    requires !cfg.allowItemOverride && cfg.items == Str(name) && name != ""
    ensures InputStepAsWritten(cfg, true, s, message) == Outcome(s, true)
  {
  }

  /** A name given as a string is fetched under that name. */
  lemma SingleNameRequested(cfg: Config, s: GetState, message: map<string, JsValue>, name: string, settled: Result<seq<Item>, JsValue>)
    requires !cfg.allowItemOverride && cfg.items == Str(name) && name != ""
    ensures InputStep(cfg, true, s, message, settled).state.requests == s.requests + [Str(name)]
  {
    assert ItemNames([ItemRecord(Str(name))]) == [Str(name)];
  }

  /** On a failed request no message is sent and the node shows the error. */
  lemma FailureSendsNothing(cfg: Config, s: GetState, message: map<string, JsValue>, errorMessage: JsValue)
    ensures InputStep(cfg, true, s, message, Err(errorMessage)).state.sent == s.sent
    ensures MakesRequests(cfg, message) ==>
      var r := InputStep(cfg, true, s, message, Err(errorMessage));
      && r.state.statuses == s.statuses + [Status("red", "dot", TextOr(errorMessage, "error"))]
      && r.state.warnings == s.warnings + [errorMessage]
  {
    assert NODE_STATE[0] != EVENTSOURCE_STATE[0];
    assert NodeStatus(NODE_STATE, NODE_ERROR, errorMessage) == Ok(Status("red", "dot", TextOr(errorMessage, "error")));
  }

  /** Items of an unusable kind are replaced by the empty list: nothing is
      requested and, once that empty batch settles, a message with the empty
      payload is sent. */
  lemma InvalidItemsSendEmptyPayload(cfg: Config, s: GetState, message: map<string, JsValue>, n: int)
    requires !cfg.allowItemOverride && cfg.items == Num(n) && n != 0
    ensures InputStep(cfg, true, s, message, Ok([]))
      == Outcome(s.(sent := s.sent + [OutMsg(message, map[])]), false)
  {
    assert ItemNames([]) == [];
  }

  /** Without a controller the node never reacts to input. */
  lemma NoControllerIgnoresInput(cfg: Config, s: GetState, message: map<string, JsValue>, settled: Result<seq<Item>, JsValue>)
    ensures InputStep(cfg, false, s, message, settled) == Outcome(s, false)
    ensures StartStep(false).statuses == [Status("red", "dot", Str(NoControllerText))]
  {
  }
}
