/** The body of a cart purchase: an array of items inside an object. */
module Carts {
  import opened Values
  import opened JsonSpec
  import opened JsonTrees
  import opened Models

  datatype CartsItem = CartsItem(productId: int, amount: int)

  const ITEM_KINDS: seq<(string, Kind)> := [("product_id", NumberKind), ("amount", NumberKind)]

  function GetArray(json: Option<Json>, key: string): Option<seq<Json>> {
    if json.Some? && json.value.Object? && FieldOf(json.value.fields, key).Some? &&
      FieldOf(json.value.fields, key).value.Array?
    then Some(FieldOf(json.value.fields, key).value.items) else None
  }

  /** The object has an array of items, and each is an object with the two numbers. */
  predicate IsPurchase(json: Option<Json>) {
    GetArray(json, "items").Some? &&
    var items := GetArray(json, "items").value;
    forall i :: 0 <= i < |items| ==> ObjConforms(Some(items[i]), ITEM_KINDS)
  }

  /** The loop over the items: all of them in order, or a failure. */
  method CartsPurchaseReqFromJson(json: Option<Json>) returns (ok: bool, items: seq<CartsItem>)
    ensures ok <==> IsPurchase(json)
    ensures ok ==> var raw := GetArray(json, "items").value;
      && |items| == |raw|
      && forall i :: 0 <= i < |items| ==>
           && items[i].productId == GetInt(Some(raw[i]), "product_id")
           && items[i].amount == GetInt(Some(raw[i]), "amount")
  {
    items := [];
    if GetArray(json, "items").None? {
      return false, items;
    }
    var raw := GetArray(json, "items").value;
    for i := 0 to |raw|
      invariant |items| == i && forall k :: 0 <= k < i ==> ObjConforms(Some(raw[k]), ITEM_KINDS)
      invariant forall k :: 0 <= k < i ==>
        && items[k].productId == GetInt(Some(raw[k]), "product_id")
        && items[k].amount == GetInt(Some(raw[k]), "amount")
    {
      if !ObjConforms(Some(raw[i]), ITEM_KINDS) {
        return false, [];
      }
      items := items + [CartsItem(GetInt(Some(raw[i]), "product_id"), GetInt(Some(raw[i]), "amount"))];
    }
    ok := true;
  }

  /** What a client sends for an item. */
  function ItemTree(m: CartsItem): Json
    requires m.productId >= 0 && m.amount >= 0
  {
    Object([KV("product_id", Number(Digits(m.productId))), KV("amount", Number(Digits(m.amount)))])
  }

  predicate Sendable(m: CartsItem) {
    0 <= m.productId && Int64(m.productId) && 0 <= m.amount && Int64(m.amount)
  }

  function PurchaseTree(items: seq<CartsItem>): Json
    requires forall i :: 0 <= i < |items| ==> Sendable(items[i])
  {
    Object([KV("items", Array(seq(|items|, i requires 0 <= i < |items| && Sendable(items[i]) => ItemTree(items[i]))))])
  }

  lemma {:induction false} ItemRead(m: CartsItem, y: Style)
    requires Sendable(m)
    ensures var v := ItemTree(m);
      && Readable(v) && Printable(v, y) && ObjConforms(Some(v), ITEM_KINDS)
      && GetInt(Some(v), "product_id") == m.productId && GetInt(Some(v), "amount") == m.amount
  {
    hide NumberText, Digits, StrToLL;
    DigitsReadable(m.productId);
    DigitsReadable(m.amount);
    IntReadBack(m.productId);
    IntReadBack(m.amount);
    var fields := ItemTree(m).fields;
    assert FieldOf(fields, "product_id") == Some(fields[0].val);
    assert fields[1..] == [fields[1]] && FieldOf(fields[1..], "amount") == Some(fields[1].val);
    assert FieldOf(fields, "amount") == Some(fields[1].val);
  }

  /** A purchase of any number of items, laid out in any way, is read with every item in order. */
  lemma {:induction false} PurchaseRead(items: seq<CartsItem>, y: Style, rest: string)
    requires items != [] && (forall i :: 0 <= i < |items| ==> Sendable(items[i])) && White(y.gap) && Stops(rest)
    ensures var json := JsonParse(Text(PurchaseTree(items), y) + rest);
      && IsPurchase(json)
      && var raw := GetArray(json, "items").value;
         && |raw| == |items|
         && forall i :: 0 <= i < |items| ==>
              && GetInt(Some(raw[i]), "product_id") == items[i].productId
              && GetInt(Some(raw[i]), "amount") == items[i].amount
  {
    hide JsonParse, Text, ItemTree, Sendable, Stops, White, ObjConforms, GetInt;
    var v := PurchaseTree(items);
    var raw := v.fields[0].val.items;
    forall i | 0 <= i < |items|
      ensures Readable(raw[i]) && Printable(raw[i], y) && ObjConforms(Some(raw[i]), ITEM_KINDS)
      ensures GetInt(Some(raw[i]), "product_id") == items[i].productId
      ensures GetInt(Some(raw[i]), "amount") == items[i].amount
    {
      ItemRead(items[i], y);
    }
    assert Readable(v.fields[0].val) && Printable(v.fields[0].val, y);
    TreeRoundTrip(v, y, rest);
  }
}
