/**
 * The cart page: the list of cart items the view holds, its copy under
 * the "cart" key of the browser's local storage, removal of an item by
 * id, the two WhatsApp enquiry messages, and the sign-in gate that sends
 * a visitor without a session to the login page.
 */
module Cart {
  import opened Wrappers
  import opened Text
  import WhatsApp

  /** A cart entry, as stored and shown. */
  datatype CartItem = CartItem(id: string, title: string, brand: string, price: string, features: seq<string>)

  /** Where a visitor without a session is sent. */
  const LoginRedirect := "/login?redirect=/cart"

  // ---------------------------------------------------------------------
  // Removal

  /** `items.filter(item => item.id !== id)`. */
  function RemoveId(items: seq<CartItem>, id: string): (r: seq<CartItem>)
    ensures forall k :: 0 <= k < |r| ==> r[k].id != id
  {
    if |items| == 0 then []
    else (if items[0].id == id then [] else [items[0]]) + RemoveId(items[1..], id)
  }

  /** `r` is `s` with some elements deleted and the rest in their order. */
  ghost predicate IsSubsequence<T>(r: seq<T>, s: seq<T>)
    decreases |s|
  {
    if |r| == 0 then true
    else if |s| == 0 then false
    else if r[0] == s[0] then IsSubsequence(r[1..], s[1..])
    else IsSubsequence(r, s[1..])
  }

  /** Removal keeps the remaining items in their original relative order. */
  lemma {:induction false} RemoveIdKeepsOrder(items: seq<CartItem>, id: string)
    ensures IsSubsequence(RemoveId(items, id), items)
  {
    if |items| > 0 {
      RemoveIdKeepsOrder(items[1..], id);
      var rest := RemoveId(items[1..], id);
      if items[0].id != id {
        assert RemoveId(items, id) == [items[0]] + rest;
        assert ([items[0]] + rest)[1..] == rest;
      } else {
        // the item dropped here cannot be the next one kept
        assert RemoveId(items, id) == rest;
        assert |rest| > 0 ==> rest[0] != items[0];
      }
    }
  }

  /** Removal keeps every other item as often as it occurred and drops
      every item with the id. */
  lemma {:induction false} RemoveIdCounts(items: seq<CartItem>, id: string)
    ensures forall x :: multiset(RemoveId(items, id))[x] == if x.id == id then 0 else multiset(items)[x]
  {
    if |items| > 0 {
      RemoveIdCounts(items[1..], id);
      assert items == [items[0]] + items[1..];
    }
  }

  /** Removing an id that no item has leaves the list as it was. */
  lemma {:induction false} RemoveAbsentId(items: seq<CartItem>, id: string)
    requires forall k :: 0 <= k < |items| ==> items[k].id != id
    ensures RemoveId(items, id) == items
  {
    if |items| > 0 {
      RemoveAbsentId(items[1..], id);
      assert items == [items[0]] + items[1..];
    }
  }

  /** Removal applies to each part of a list separately. */
  lemma {:induction false} RemoveIdAppend(a: seq<CartItem>, b: seq<CartItem>, id: string)
    ensures RemoveId(a + b, id) == RemoveId(a, id) + RemoveId(b, id)
  {
    if |a| == 0 {
      assert a + b == b;
    } else {
      var head := if a[0].id == id then [] else [a[0]];
      assert (a + b)[0] == a[0];
      assert (a + b)[1..] == a[1..] + b;
      assert RemoveId(a + b, id) == head + RemoveId(a[1..] + b, id);
      RemoveIdAppend(a[1..], b, id);
      assert RemoveId(a, id) == head + RemoveId(a[1..], id);
    }
  }

  // ---------------------------------------------------------------------
  // Enquiry messages

  const ManyHeader := "Hello! I'm interested in the following products:\n\n"
  const OneHeader := "Hello! I'm interested in the following product:\n\n\U{1F539} *"
  const Closing := "\n\nPlease provide more details and availability. Thank you!"
  const BrandLabel := "*\n\U{1F3F7}\U{FE0F} Brand: "
  const PriceLabel := "\n\U{1F4B0} Price: "
  const FeaturesLabel := "\n✨ Features: "

  /** The line for the item numbered `number` in the enquire-all list. */
  function ItemLine(number: nat, item: CartItem): (line: string)
    ensures |line| > |Decimal(number)| + 3 && line[..|Decimal(number)|] == Decimal(number)
    ensures line[|Decimal(number)|..|Decimal(number)| + 3] == ". *"
    ensures OneLine(item.title) && OneLine(item.brand) && OneLine(item.price) ==> OneLine(line)
  {
    var d := Decimal(number);
    assert forall i :: 0 <= i < |d| ==> d[i] != '\n';
    d + ". *" + item.title + "* (" + item.brand + ") - " + item.price
  }

  /** `cartItems.map((item, index) => ...)`: line k is numbered k + 1. */
  function ItemLines(items: seq<CartItem>): (lines: seq<string>)
    ensures |lines| == |items|
    ensures forall k :: 0 <= k < |lines| ==> |lines[k]| >= |Decimal(k + 1)| && lines[k][..|Decimal(k + 1)|] == Decimal(k + 1)
  {
    seq(|items|, k requires 0 <= k < |items| => ItemLine(k + 1, items[k]))
  }

  /** The enquire-all message, or nothing for an empty cart. */
  function EnquireAllMessage(items: seq<CartItem>): (m: Option<string>)
    ensures m.None? <==> |items| == 0
    ensures m.Some? ==> |m.value| >= |ManyHeader| + |Closing|
    ensures m.Some? ==> m.value[..|ManyHeader|] == ManyHeader
    ensures m.Some? ==> m.value[|m.value| - |Closing|..] == Closing
  {
    if |items| == 0 then None
    else Some(ManyHeader + Join(ItemLines(items), "\n") + Closing)
  }

  /** The numbered list inside an enquire-all message. */
  function ListOf(m: string): string
    requires |m| >= |ManyHeader| + |Closing|
  {
    m[|ManyHeader|..|m| - |Closing|]
  }

  predicate OneLine(s: string)
  {
    '\n' !in s
  }

  /** Every item line starts with its number, which reads back as that number. */
  lemma ItemLineNumber(number: nat, item: CartItem)
    ensures var line := ItemLine(number, item);
            |line| >= |Decimal(number)| && AllDigits(line[..|Decimal(number)|])
            && DecimalValue(line[..|Decimal(number)|]) == number
  {
    var line := ItemLine(number, item);
    assert line[..|Decimal(number)|] == Decimal(number);
    DecimalRoundTrip(number);
  }

  /** Line by line, the list in the enquire-all message has one line per
      cart item, in cart order, numbered from 1 (provided the item fields
      hold no line break of their own). */
  lemma EnquireAllLines(items: seq<CartItem>)
    requires |items| > 0
    requires forall k :: 0 <= k < |items| ==>
               OneLine(items[k].title) && OneLine(items[k].brand) && OneLine(items[k].price)
    ensures var lines := Split(ListOf(EnquireAllMessage(items).value), '\n');
            |lines| == |items| && forall k :: 0 <= k < |items| ==> lines[k] == ItemLine(k + 1, items[k])
  {
    var lines := ItemLines(items);
    var m := EnquireAllMessage(items).value;
    assert ListOf(m) == Join(lines, "\n");
    assert forall k :: 0 <= k < |lines| ==> lines[k] == ItemLine(k + 1, items[k]);
    SplitJoin(lines, '\n');
  }

  /** `item.features.join(", ")`: every feature whole, with ", " between
      neighbours and nothing else. */
  function FeatureList(item: CartItem): (list: string)
    ensures |item.features| == 0 ==> list == ""
    ensures |item.features| > 0 ==> |list| == TotalLength(item.features) + 2 * (|item.features| - 1)
  {
    if |item.features| == 0 then ""
    else JoinLength(item.features, ", "); Join(item.features, ", ")
  }

  /** `piece` occurs in `m` starting at index i. */
  predicate At(m: string, i: nat, piece: string)
  {
    i + |piece| <= |m| && m[i..i + |piece|] == piece
  }

  /** The single-item enquiry message. */
  function EnquireSingleMessage(item: CartItem): string
  {
    OneHeader + item.title + BrandLabel + item.brand + PriceLabel + item.price
      + FeaturesLabel + FeatureList(item) + Closing
  }

  /** The single-item message is the fixed greeting, then the title, the
      brand and the price each after its label, then the features label
      and the feature list, then the fixed closing, with nothing in
      between. */
  lemma SingleMessageLayout(item: CartItem)
    ensures var m := EnquireSingleMessage(item);
            var t := |OneHeader|;
            At(m, 0, OneHeader) && At(m, t, item.title)
    ensures var m := EnquireSingleMessage(item);
            var b := |OneHeader| + |item.title|;
            At(m, b, BrandLabel) && At(m, b + |BrandLabel|, item.brand)
    ensures var m := EnquireSingleMessage(item);
            var p := |OneHeader| + |item.title| + |BrandLabel| + |item.brand|;
            At(m, p, PriceLabel) && At(m, p + |PriceLabel|, item.price)
    ensures var m := EnquireSingleMessage(item);
            var f := |OneHeader| + |item.title| + |BrandLabel| + |item.brand| + |PriceLabel| + |item.price|;
            At(m, f, FeaturesLabel) && At(m, f + |FeaturesLabel|, FeatureList(item))
            && |m| == f + |FeaturesLabel| + |FeatureList(item)| + |Closing|
            && At(m, |m| - |Closing|, Closing)
  {
    Layout(OneHeader, item.title, BrandLabel, item.brand, PriceLabel, item.price,
           FeaturesLabel, FeatureList(item), Closing);
  }

  /** When x followed by a piece begins m, the piece sits in m right
      after x, and x itself begins m. */
  lemma PieceAfter(x: string, piece: string, m: string)
    requires |x + piece| <= |m| && m[..|x + piece|] == x + piece
    ensures m[..|x|] == x && At(m, |x|, piece)
  {
    assert m[..|x|] == m[..|x + piece|][..|x|];
    assert m[|x|..|x| + |piece|] == m[..|x + piece|][|x|..];
  }

  /** Where each of nine consecutive pieces sits in their concatenation. */
  lemma Layout(s0: string, s1: string, s2: string, s3: string, s4: string,
               s5: string, s6: string, s7: string, s8: string)
    ensures var m := s0 + s1 + s2 + s3 + s4 + s5 + s6 + s7 + s8;
            var o1 := |s0|;
            var o2 := o1 + |s1|;
            var o3 := o2 + |s2|;
            var o4 := o3 + |s3|;
            var o5 := o4 + |s4|;
            var o6 := o5 + |s5|;
            var o7 := o6 + |s6|;
            var o8 := o7 + |s7|;
            && At(m, 0, s0) && At(m, o1, s1) && At(m, o2, s2) && At(m, o3, s3) && At(m, o4, s4)
            && At(m, o5, s5) && At(m, o6, s6) && At(m, o7, s7) && At(m, o8, s8) && |m| == o8 + |s8|
  {
    var p1 := s0 + s1;
    var p2 := p1 + s2;
    var p3 := p2 + s3;
    var p4 := p3 + s4;
    var p5 := p4 + s5;
    var p6 := p5 + s6;
    var p7 := p6 + s7;
    var m := p7 + s8;
    PieceAfter(p7, s8, m);
    PieceAfter(p6, s7, m);
    PieceAfter(p5, s6, m);
    PieceAfter(p4, s5, m);
    PieceAfter(p3, s4, m);
    PieceAfter(p2, s3, m);
    PieceAfter(p1, s2, m);
    PieceAfter(s0, s1, m);
    PieceAfter("", s0, m);
  }

  /** In the feature list of a single-item message every feature appears
      after all features before it and before all features after it. */
  lemma FeatureInOrder(item: CartItem, k: nat)
    requires k < |item.features|
    ensures FeatureList(item)
         == JoinedBefore(item.features, ", ", k) + item.features[k] + JoinedAfter(item.features, ", ", k)
  {
    JoinAround(item.features, ", ", k);
  }

  // ---------------------------------------------------------------------
  // The page

  class CartView {
    var cartItems: seq<CartItem>
    var loading: bool
    /** The "cart" entry of local storage, `None` when it is absent;
        JSON encoding is taken to round-trip. */
    var saved: Option<seq<CartItem>>
    /** The last route the page navigated to, if any. */
    var redirect: Option<string>

    /** The view and its stored copy agree. */
    predicate Persisted()
      reads this
    {
      saved == Some(cartItems)
    }

    constructor (stored: Option<seq<CartItem>>)
      ensures cartItems == [] && loading && saved == stored && redirect == None
    {
      cartItems := [];
      loading := true;
      saved := stored;
      redirect := None;
    }

    /** `checkAuth`: without a session, go to the login page and load
        nothing; with one, load the stored cart if there is one. */
    method CheckAuth(hasSession: bool)
      modifies this`cartItems, this`loading, this`redirect
      ensures !hasSession ==> redirect == Some(LoginRedirect)
                              && cartItems == old(cartItems) && loading == old(loading)
      ensures hasSession ==> redirect == old(redirect) && !loading
                             && cartItems == (if saved.Some? then saved.value else old(cartItems))
      ensures hasSession && saved.Some? ==> Persisted()
    {
      if !hasSession {
        redirect := Some(LoginRedirect);
        return;
      }
      if saved.Some? {
        cartItems := saved.value;
      }
      loading := false;
    }

    /** The auth-state listener: losing the session sends the visitor to
        the login page. */
    method OnAuthStateChange(hasSession: bool)
      modifies this`redirect
      ensures redirect == if hasSession then old(redirect) else Some(LoginRedirect)
    {
      if !hasSession {
        redirect := Some(LoginRedirect);
      }
    }

    /** `removeFromCart(id)`: filter the list and overwrite the stored copy. */
    method RemoveFromCart(id: string)
      modifies this`cartItems, this`saved
      ensures cartItems == RemoveId(old(cartItems), id)
      ensures Persisted()
      ensures forall k :: 0 <= k < |cartItems| ==> cartItems[k].id != id
      ensures IsSubsequence(cartItems, old(cartItems))
      ensures forall x :: multiset(cartItems)[x] == if x.id == id then 0 else multiset(old(cartItems))[x]
    {
      RemoveIdKeepsOrder(cartItems, id);
      RemoveIdCounts(cartItems, id);
      cartItems := RemoveId(cartItems, id);
      saved := Some(cartItems);
    }

    /** `handleEnquireAll`: the link it opens, or none for an empty cart. */
    method EnquireAll(encode: string -> string) returns (link: Option<string>)
      ensures link.None? <==> |cartItems| == 0
      ensures link.Some? ==>
                WhatsApp.EncodedText(link.value) == Some(encode(EnquireAllMessage(cartItems).value))
    {
      var message := EnquireAllMessage(cartItems);
      if message.None? {
        return None;
      }
      WhatsApp.UrlCarriesMessage(encode, message);
      link := Some(WhatsApp.WhatsAppUrl(encode, message));
    }

    /** `handleEnquireSingle(item)`: the link it opens. */
    method EnquireSingle(item: CartItem, encode: string -> string) returns (link: string)
      ensures WhatsApp.EncodedText(link) == Some(encode(EnquireSingleMessage(item)))
    {
      var message := EnquireSingleMessage(item);
      WhatsApp.UrlCarriesMessage(encode, Some(message));
      link := WhatsApp.WhatsAppUrl(encode, Some(message));
    }
  }
}
