/** The shop cart kept in the browser (components/shop-cart-provider.tsx) and the button that fills it. */
module ShopCart {
  import opened Prelude
  import opened Text

  datatype Line = Line(productId: Text, quantity: int)

  /** A JSON value; numbers that are not integers within the safe range are all alike here. */
  datatype Json =
    | Null
    | Boolean(flag: bool)
    | Integer(value: int)
    | OtherNumber
    | String(text: Text)
    | Array(items: seq<Json>)
    | Object(members: map<Text, Json>)

  const MAX_QUANTITY: int := 20
  const MAX_LINES: nat := 20

  /** The member names "productId" and "quantity". */
  const PRODUCT_ID: Text := [112, 114, 111, 100, 117, 99, 116, 73, 100]
  const QUANTITY: Text := [113, 117, 97, 110, 116, 105, 116, 121]

  /** The pattern of the source: a UUID of version 1 to 5 and of the variant of RFC 4122, section 4.1.1. */
  predicate IsProductUuid(s: Text) {
    && IsUuid(s)
    && '1' as int <= s[14] <= '5' as int
    && (s[19] == '8' as int || s[19] == '9' as int || s[19] == 'a' as int || s[19] == 'b' as int
        || s[19] == 'A' as int || s[19] == 'B' as int)
  }

  predicate ValidLine(line: Line) {
    IsProductUuid(line.productId) && 1 <= line.quantity <= MAX_QUANTITY
  }

  /** The line an entry stands for, if the parser accepts it. */
  function Accepted(entry: Json): Option<Line> {
    if !entry.Object? || (exists name :: name in entry.members && name != PRODUCT_ID && name != QUANTITY) then None
    else if PRODUCT_ID !in entry.members || QUANTITY !in entry.members then None
    else
      var id, quantity := entry.members[PRODUCT_ID], entry.members[QUANTITY];
      if id.String? && quantity.Integer? && ValidLine(Line(id.text, quantity.value))
      then Some(Line(id.text, quantity.value)) else None
  }

  /** `Map.set`: a known product keeps its place and takes the new quantity. */
  function Put(lines: seq<Line>, line: Line): seq<Line> {
    if lines == [] then [line]
    else if lines[0].productId == line.productId then [line] + lines[1..]
    else [lines[0]] + Put(lines[1..], line)
  }

  function Filled(entries: seq<Json>): seq<Line> {
    if entries == [] then []
    else
      var before, line := Filled(entries[..|entries| - 1]), Accepted(entries[|entries| - 1]);
      if line.Some? then Put(before, line.value) else before
  }

  /** `parseStoredCart`; nothing stored, or text that is no JSON, is `None`. */
  function Parse(stored: Option<Json>): seq<Line> {
    if stored.Some? && stored.value.Array? then Take(Filled(stored.value.items), MAX_LINES) else []
  }

  function Entry(line: Line): Json {
    Object(map[PRODUCT_ID := String(line.productId), QUANTITY := Integer(line.quantity)])
  }

  function Entries(lines: seq<Line>): seq<Json> {
    seq(|lines|, i requires 0 <= i < |lines| => Entry(lines[i]))
  }

  function Serialize(lines: seq<Line>): Json {
    Array(Entries(lines))
  }

  function Ids(lines: seq<Line>): seq<Text> {
    seq(|lines|, i requires 0 <= i < |lines| => lines[i].productId)
  }

  ghost predicate Normal(lines: seq<Line>) {
    && |lines| <= MAX_LINES && Distinct(Ids(lines))
    && forall i :: 0 <= i < |lines| ==> 1 <= lines[i].quantity <= MAX_QUANTITY
  }

  function ItemCount(lines: seq<Line>): int {
    if lines == [] then 0 else lines[0].quantity + ItemCount(lines[1..])
  }

  // ----- parsing

  function AcceptedIds(entries: seq<Json>): seq<Text> {
    if entries == [] then []
    else
      var before, line := AcceptedIds(entries[..|entries| - 1]), Accepted(entries[|entries| - 1]);
      if line.Some? then before + [line.value.productId] else before
  }

  /** The quantity of the last accepted entry for a product. */
  function LastQuantity(entries: seq<Json>, id: Text): Option<int> {
    if entries == [] then None
    else
      var line := Accepted(entries[|entries| - 1]);
      if line.Some? && line.value.productId == id then Some(line.value.quantity)
      else LastQuantity(entries[..|entries| - 1], id)
  }

  function Find(lines: seq<Line>, id: Text): (found: Option<nat>)
    ensures found.None? <==> id !in Ids(lines)
    ensures found.Some? ==> found.value < |lines| && lines[found.value].productId == id
  {
    assert forall k :: 0 <= k < |lines| ==> Ids(lines)[k] == lines[k].productId;
    if lines == [] then None
    else if lines[0].productId == id then Some(0)
    else
      var rest := Find(lines[1..], id);
      assert Ids(lines) == [lines[0].productId] + Ids(lines[1..]);
      if rest.Some? then Some(rest.value + 1) else None
  }

  lemma {:induction false} PutPlaces(lines: seq<Line>, line: Line)
    ensures var found := Find(lines, line.productId);
            Put(lines, line) == if found.Some? then lines[found.value := line] else lines + [line]
  {
    if lines != [] {
      PutPlaces(lines[1..], line);
    }
  }

  lemma PutIds(lines: seq<Line>, line: Line)
    ensures Ids(Put(lines, line)) == if line.productId in Ids(lines) then Ids(lines) else Ids(lines) + [line.productId]
  {
    PutPlaces(lines, line);
  }

  /** The accepted products, each once, in the order of their first entries. */
  lemma {:induction false} FilledKeepsFirstPlaces(entries: seq<Json>)
    ensures Ids(Filled(entries)) == Unique(AcceptedIds(entries)) && Distinct(Ids(Filled(entries)))
  {
    UniqueKeepsFirstOccurrences(AcceptedIds(entries));
    if entries != [] {
      var front, line := entries[..|entries| - 1], Accepted(entries[|entries| - 1]);
      FilledKeepsFirstPlaces(front);
      if line.Some? {
        PutIds(Filled(front), line.value);
        var ids := AcceptedIds(front);
        assert (ids + [line.value.productId])[..|ids|] == ids;
      }
      hide Accepted, Put;
    }
  }

  /** Each product has the quantity of its last accepted entry. */
  lemma {:induction false} FilledKeepsLastQuantities(entries: seq<Json>, i: nat)
    requires i < |Filled(entries)|
    ensures ValidLine(Filled(entries)[i])
    ensures Some(Filled(entries)[i].quantity) == LastQuantity(entries, Filled(entries)[i].productId)
  {
    if entries != [] {
      var front, line := entries[..|entries| - 1], Accepted(entries[|entries| - 1]);
      if line.None? {
        FilledKeepsLastQuantities(front, i);
      } else {
        PutPlaces(Filled(front), line.value);
        var found := Find(Filled(front), line.value.productId);
        FilledKeepsFirstPlaces(front);
        hide ValidLine, IsProductUuid, Put;
        if i < |Filled(front)| {
          assert Ids(Filled(front))[i] == Filled(front)[i].productId;
        }
        if i < |Filled(front)| && found != Some(i) {
          FilledKeepsLastQuantities(front, i);
          assert found.Some? ==> Ids(Filled(front))[found.value] == line.value.productId;
        }
      }
    }
  }

  lemma {:induction false} CountIsBounded(lines: seq<Line>)
    requires forall i :: 0 <= i < |lines| ==> 1 <= lines[i].quantity <= MAX_QUANTITY
    ensures |lines| <= ItemCount(lines) <= MAX_QUANTITY * |lines|
  {
    if lines != [] {
      CountIsBounded(lines[1..]);
    }
  }

  /** Whatever is stored, what is read is a normal cart of at most 400 items, all of them UUID products. */
  lemma ParsedIsNormal(stored: Option<Json>)
    ensures Normal(Parse(stored)) && ItemCount(Parse(stored)) <= 400
    ensures forall i :: 0 <= i < |Parse(stored)| ==> IsProductUuid(Parse(stored)[i].productId)
  {
    var lines := Parse(stored);
    if stored.Some? && stored.value.Array? {
      var all := Filled(stored.value.items);
      FilledKeepsFirstPlaces(stored.value.items);
      forall i | 0 <= i < |lines| ensures lines[i] == all[i] && ValidLine(all[i]) {
        FilledKeepsLastQuantities(stored.value.items, i);
      }
      assert forall i :: 0 <= i < |lines| ==> Ids(lines)[i] == Ids(all)[i];
    }
    CountIsBounded(lines);
  }

  /** The loop of `parseStoredCart` over the entries of the stored list. */
  method ParseStoredCart(stored: Option<Json>) returns (lines: seq<Line>)
    ensures lines == Parse(stored)
  {
    if stored.None? || !stored.value.Array? { return []; }
    var entries := stored.value.items;
    var known: seq<Line> := [];
    for i := 0 to |entries|
      invariant known == Filled(entries[..i])
    {
      assert entries[..i + 1][..i] == entries[..i];
      var entry := entries[i];
      if !entry.Object? || (exists name :: name in entry.members && name != PRODUCT_ID && name != QUANTITY) { continue; }
      if PRODUCT_ID !in entry.members || QUANTITY !in entry.members { continue; }
      var productId, quantity := entry.members[PRODUCT_ID], entry.members[QUANTITY];
      if !productId.String? || !IsProductUuid(productId.text) { continue; }
      if !quantity.Integer? || quantity.value < 1 || quantity.value > MAX_QUANTITY { continue; }
      known := Put(known, Line(productId.text, quantity.value));
    }
    assert entries[..|entries|] == entries;
    return Take(known, MAX_LINES);
  }

  // ----- storing and reading back

  function Uuids(lines: seq<Line>): seq<Line> {
    if lines == [] then []
    else if IsProductUuid(lines[|lines| - 1].productId) then Uuids(lines[..|lines| - 1]) + [lines[|lines| - 1]]
    else Uuids(lines[..|lines| - 1])
  }

  lemma EntryIsAccepted(line: Line)
    ensures Accepted(Entry(line)) == if ValidLine(line) then Some(line) else None
  {
    assert PRODUCT_ID != QUANTITY;
    var m := Entry(line).members;
    assert m[PRODUCT_ID] == String(line.productId) && m[QUANTITY] == Integer(line.quantity);
    hide IsProductUuid;
  }

  /** An entry stands for a line exactly if it is the line's own entry, with nothing else in it, and the line is valid. */
  lemma AcceptedExactly(entry: Json, line: Line)
    ensures Accepted(entry) == Some(line) <==> ValidLine(line) && entry == Entry(line)
  {
    EntryIsAccepted(line);
    assert PRODUCT_ID != QUANTITY;
    if Accepted(entry) == Some(line) {
      assert entry.members == Entry(line).members;
    }
    hide IsProductUuid;
  }

  lemma {:induction false} PutNew(lines: seq<Line>, line: Line)
    requires line.productId !in Ids(lines)
    ensures Put(lines, line) == lines + [line]
  {
    if lines != [] {
      assert Ids(lines)[0] == lines[0].productId;
      assert forall k :: 0 <= k < |lines[1..]| ==> Ids(lines[1..])[k] == Ids(lines)[k + 1];
      PutNew(lines[1..], line);
    }
  }

  lemma {:induction false} StoredIsFilled(lines: seq<Line>)
    requires Distinct(Ids(lines)) && forall i :: 0 <= i < |lines| ==> 1 <= lines[i].quantity <= MAX_QUANTITY
    ensures Filled(Entries(lines)) == Uuids(lines)
    ensures forall line :: line in Uuids(lines) ==> line in lines && IsProductUuid(line.productId)
    ensures |Uuids(lines)| <= |lines|
  {
    if lines != [] {
      var front, last := lines[..|lines| - 1], lines[|lines| - 1];
      assert Entries(lines)[..|lines| - 1] == Entries(front);
      assert forall i :: 0 <= i < |front| ==> Ids(front)[i] == Ids(lines)[i];
      StoredIsFilled(front);
      EntryIsAccepted(last);
      hide IsProductUuid, Accepted;
      assert Ids(lines)[|lines| - 1] == last.productId;
      if IsProductUuid(last.productId) {
        assert last.productId !in Ids(Uuids(front)) by {
          forall k | 0 <= k < |Uuids(front)| ensures Uuids(front)[k].productId != last.productId {
            assert Uuids(front)[k] in front;
            var i :| 0 <= i < |front| && front[i] == Uuids(front)[k];
            assert Ids(lines)[i] != Ids(lines)[|lines| - 1];
          }
        }
        PutNew(Uuids(front), last);
      }
    }
  }

  lemma {:induction false} UuidsAreAll(lines: seq<Line>)
    ensures Uuids(lines) == lines <==> forall i :: 0 <= i < |lines| ==> IsProductUuid(lines[i].productId)
    ensures |Uuids(lines)| <= |lines|
  {
    hide IsProductUuid;
    if lines != [] {
      var front, last := lines[..|lines| - 1], lines[|lines| - 1];
      UuidsAreAll(front);
      assert lines == front + [last];
    }
  }

  /** A stored cart is read back as its UUID products; as it was, if and only if it holds nothing else. */
  lemma ParseOfSerialized(lines: seq<Line>)
    requires Normal(lines)
    ensures Parse(Some(Serialize(lines))) == Uuids(lines)
    ensures Parse(Some(Serialize(lines))) == lines <==> forall i :: 0 <= i < |lines| ==> IsProductUuid(lines[i].productId)
  {
    StoredIsFilled(lines);
    UuidsAreAll(lines);
    hide IsProductUuid, Uuids, Filled;
  }

  // ----- updating

  function Min(a: int, b: int): int {
    if a <= b then a else b
  }

  /** `current.map`: every line of the product gets a new quantity. */
  function Requantified(lines: seq<Line>, id: Text, quantity: int -> int): seq<Line> {
    seq(|lines|, i requires 0 <= i < |lines| =>
      if lines[i].productId == id then Line(id, quantity(lines[i].quantity)) else lines[i])
  }

  /** `add`; a quantity that is no safe integer is `None`. */
  function Add(lines: seq<Line>, id: Text, quantity: Option<int>): seq<Line> {
    if quantity.None? || quantity.value < 1 || quantity.value > MAX_QUANTITY then lines
    else if Find(lines, id).None? then Take(lines + [Line(id, quantity.value)], MAX_LINES)
    else Requantified(lines, id, old_ => Min(MAX_QUANTITY, old_ + quantity.value))
  }

  function Remove(lines: seq<Line>, id: Text): seq<Line> {
    if lines == [] then []
    else if lines[0].productId == id then Remove(lines[1..], id)
    else [lines[0]] + Remove(lines[1..], id)
  }

  function SetQuantity(lines: seq<Line>, id: Text, quantity: Option<int>): seq<Line> {
    if quantity.None? || quantity.value < 1 then Remove(lines, id)
    else Requantified(lines, id, _ => Min(MAX_QUANTITY, quantity.value))
  }

  /** The quantity of a product; a product that is not in the cart has none of it. */
  function QuantityOf(lines: seq<Line>, id: Text): int {
    if lines == [] then 0 else if lines[0].productId == id then lines[0].quantity else QuantityOf(lines[1..], id)
  }

  function QuantityAt(lines: seq<Line>, found: Option<nat>): int
    requires found.Some? ==> found.value < |lines|
  {
    if found.Some? then lines[found.value].quantity else 0
  }

  lemma {:induction false} QuantityIsFound(lines: seq<Line>, id: Text)
    ensures QuantityOf(lines, id) == QuantityAt(lines, Find(lines, id))
  {
    if lines != [] && lines[0].productId != id {
      QuantityIsFound(lines[1..], id);
    }
  }

  lemma RequantifiedIsOneUpdate(lines: seq<Line>, id: Text, quantity: int -> int)
    requires Distinct(Ids(lines))
    ensures var found := Find(lines, id);
            && Requantified(lines, id, quantity)
               == (if found.Some? then lines[found.value := Line(id, quantity(lines[found.value].quantity))] else lines)
            && Ids(Requantified(lines, id, quantity)) == Ids(lines)
  {
    var found := Find(lines, id);
    assert forall i :: 0 <= i < |lines| ==> Ids(lines)[i] == lines[i].productId;
    assert found.None? ==> forall i :: 0 <= i < |lines| ==> lines[i].productId != id;
    assert found.Some? ==> forall i :: 0 <= i < |lines| && i != found.value ==> lines[i].productId != id;
    assert Ids(Requantified(lines, id, quantity)) == Ids(lines);
  }

  lemma {:induction false} RemoveDrops(lines: seq<Line>, id: Text)
    ensures forall line :: line in Remove(lines, id) <==> line in lines && line.productId != id
    ensures |Remove(lines, id)| <= |lines|
    ensures id !in Ids(lines) ==> Remove(lines, id) == lines
  {
    if lines != [] {
      var first, rest := lines[0], lines[1..];
      RemoveDrops(rest, id);
      RemoveUnfolds(lines, id);
      assert lines == [first] + rest;
      IdsOfCons(first, rest);
      hide Remove, Ids;
    }
  }

  lemma RemoveUnfolds(lines: seq<Line>, id: Text)
    requires lines != []
    ensures var removed := Remove(lines[1..], id);
            Remove(lines, id) == if lines[0].productId == id then removed else [lines[0]] + removed
  {
  }

  lemma TailIsDistinct(lines: seq<Line>)
    requires lines != [] && Distinct(Ids(lines))
    ensures Distinct(Ids(lines[1..])) && lines[0].productId !in Ids(lines[1..])
  {
    var rest := lines[1..];
    assert forall k :: 0 <= k < |rest| ==> Ids(rest)[k] == Ids(lines)[k + 1] != Ids(lines)[0];
  }

  lemma {:induction false} RemoveCounts(lines: seq<Line>, id: Text)
    requires Distinct(Ids(lines))
    ensures QuantityOf(Remove(lines, id), id) == 0
    ensures ItemCount(Remove(lines, id)) == ItemCount(lines) - QuantityOf(lines, id)
  {
    if lines != [] {
      TailIsDistinct(lines);
      RemoveCounts(lines[1..], id);
      if lines[0].productId == id {
        RemoveDrops(lines[1..], id);
      }
    }
  }

  lemma IdsOfCons(line: Line, rest: seq<Line>)
    ensures Ids([line] + rest) == [line.productId] + Ids(rest)
    ensures Distinct(Ids(rest)) && line.productId !in Ids(rest) ==> Distinct(Ids([line] + rest))
  {
    var ids := Ids(rest);
    assert Ids([line] + rest) == [line.productId] + ids;
  }

  lemma {:induction false} RemoveStaysDistinct(lines: seq<Line>, id: Text)
    requires Distinct(Ids(lines))
    ensures Distinct(Ids(Remove(lines, id))) && forall x :: x in Ids(Remove(lines, id)) ==> x in Ids(lines)
  {
    if lines != [] {
      TailIsDistinct(lines);
      RemoveStaysDistinct(lines[1..], id);
      assert lines == [lines[0]] + lines[1..];
      IdsOfCons(lines[0], lines[1..]);
      IdsOfCons(lines[0], Remove(lines[1..], id));
      hide Ids, Distinct;
    }
  }

  lemma {:induction false} CountOfUpdate(lines: seq<Line>, k: nat, line: Line)
    requires k < |lines|
    ensures ItemCount(lines[k := line]) == ItemCount(lines) - lines[k].quantity + line.quantity
  {
    if k > 0 {
      assert lines[k := line][1..] == lines[1..][k - 1 := line];
      CountOfUpdate(lines[1..], k - 1, line);
    } else {
      assert lines[0 := line][1..] == lines[1..];
    }
  }

  lemma {:induction false} CountOfConcat(a: seq<Line>, b: seq<Line>)
    ensures ItemCount(a + b) == ItemCount(a) + ItemCount(b)
  {
    if a == [] {
      assert a + b == b;
    } else {
      assert (a + b)[1..] == a[1..] + b;
      CountOfConcat(a[1..], b);
    }
  }

  /** What an update should leave: a normal cart where only that product has changed, to `quantity`. */
  ghost predicate Updated(before: seq<Line>, after: seq<Line>, id: Text, quantity: int) {
    && Normal(after)
    && QuantityOf(after, id) == quantity
    && ItemCount(after) - ItemCount(before) == quantity - QuantityOf(before, id)
    && (forall line: Line :: line.productId != id ==> (line in after <==> line in before))
  }

  lemma UpdateInPlace(lines: seq<Line>, id: Text, quantity: int)
    requires Normal(lines) && Find(lines, id).Some? && 1 <= quantity <= MAX_QUANTITY
    ensures Updated(lines, lines[Find(lines, id).value := Line(id, quantity)], id, quantity)
  {
    var k := Find(lines, id).value;
    var after := lines[k := Line(id, quantity)];
    assert Ids(after) == Ids(lines);
    CountOfUpdate(lines, k, Line(id, quantity));
    QuantityIsFound(lines, id);
    QuantityIsFound(after, id);
    assert Find(after, id) == Some(k) by {
      var f := Find(after, id).value;
      assert Ids(after)[f] == Ids(after)[k];
    }
    forall line: Line | line.productId != id ensures line in after <==> line in lines {
      if line in lines {
        var i :| 0 <= i < |lines| && lines[i] == line;
        assert after[i] == line;
      }
    }
  }

  /** Adding keeps the cart normal and adds what was asked, up to 20; a twenty-first product is turned away. */
  lemma AddIsBounded(lines: seq<Line>, id: Text, quantity: Option<int>)
    requires Normal(lines)
    ensures var asked := if quantity.Some? && 1 <= quantity.value <= MAX_QUANTITY then quantity.value else 0;
            var full := id !in Ids(lines) && |lines| == MAX_LINES;
            Updated(lines, Add(lines, id, quantity), id,
                    if full then 0 else Min(MAX_QUANTITY, QuantityOf(lines, id) + asked))
  {
    QuantityIsFound(lines, id);
    if quantity.Some? && 1 <= quantity.value <= MAX_QUANTITY {
      if Find(lines, id).None? {
        AppendIsUpdate(lines, id, quantity.value);
      } else {
        RequantifiedIsOneUpdate(lines, id, old_ => Min(MAX_QUANTITY, old_ + quantity.value));
        UpdateInPlace(lines, id, Min(MAX_QUANTITY, QuantityOf(lines, id) + quantity.value));
      }
    }
  }

  lemma AppendIsUpdate(lines: seq<Line>, id: Text, quantity: int)
    requires Normal(lines) && Find(lines, id).None? && 1 <= quantity <= MAX_QUANTITY
    ensures Updated(lines, Take(lines + [Line(id, quantity)], MAX_LINES), id, if |lines| == MAX_LINES then 0 else quantity)
  {
    var after := Take(lines + [Line(id, quantity)], MAX_LINES);
    QuantityIsFound(lines, id);
    QuantityIsFound(after, id);
    if |lines| < MAX_LINES {
      CountOfConcat(lines, [Line(id, quantity)]);
      assert Ids(after) == Ids(lines) + [id];
      assert Find(after, id) == Some(|lines|) by {
        assert forall i :: 0 <= i < |lines| ==> Ids(lines)[i] == after[i].productId;
      }
    } else {
      assert after == lines;
    }
  }

  lemma RemoveIsUpdate(lines: seq<Line>, id: Text)
    requires Normal(lines)
    ensures Updated(lines, Remove(lines, id), id, 0)
  {
    RemoveDrops(lines, id);
    RemoveCounts(lines, id);
    RemoveStaysDistinct(lines, id);
    var after := Remove(lines, id);
    forall i | 0 <= i < |after| ensures 1 <= after[i].quantity <= MAX_QUANTITY {
      assert after[i] in lines;
    }
    hide Remove, QuantityOf, ItemCount, Ids;
  }

  /** Setting a quantity sets it, at most to 20, for a product of the cart; zero, less or no integer takes the line away. */
  lemma SetQuantityIsExact(lines: seq<Line>, id: Text, quantity: Option<int>)
    requires Normal(lines)
    ensures Updated(lines, SetQuantity(lines, id, quantity), id,
                    if quantity.None? || quantity.value < 1 || id !in Ids(lines) then 0
                    else Min(MAX_QUANTITY, quantity.value))
  {
    if quantity.None? || quantity.value < 1 {
      RemoveIsUpdate(lines, id);
    } else {
      RequantifiedIsOneUpdate(lines, id, _ => Min(MAX_QUANTITY, quantity.value));
      QuantityIsFound(lines, id);
      if Find(lines, id).Some? {
        UpdateInPlace(lines, id, Min(MAX_QUANTITY, quantity.value));
      }
    }
  }

  // ----- over whole runs

  datatype Action =
    | Adds(id: Text, quantity: Option<int>)
    | Sets(id: Text, quantity: Option<int>)
    | Removes(id: Text)
    | Clears
    | ReloadsStored
    | ReloadsOther(stored: Option<Json>)

  /** A reload reads what this page stored, or what another page or the user stored since. */
  function Act(lines: seq<Line>, action: Action): seq<Line> {
    match action
    case Adds(id, quantity) => Add(lines, id, quantity)
    case Sets(id, quantity) => SetQuantity(lines, id, quantity)
    case Removes(id) => Remove(lines, id)
    case Clears => []
    case ReloadsStored => Parse(Some(Serialize(lines)))
    case ReloadsOther(stored) => Parse(stored)
  }

  function Run(lines: seq<Line>, actions: seq<Action>): seq<Line>
    decreases |actions|
  {
    if actions == [] then lines else Run(Act(lines, actions[0]), actions[1..])
  }

  lemma ActKeeps(lines: seq<Line>, action: Action)
    requires Normal(lines)
    ensures Normal(Act(lines, action))
  {
    match action
    case Adds(id, quantity) => AddIsBounded(lines, id, quantity);
    case Sets(id, quantity) => SetQuantityIsExact(lines, id, quantity);
    case Removes(id) => RemoveIsUpdate(lines, id);
    case Clears =>
    case ReloadsStored => ParsedIsNormal(Some(Serialize(lines)));
    case ReloadsOther(stored) => ParsedIsNormal(stored);
  }

  /** The cart stays normal through every run, from whatever was stored: 20 distinct lines, 400 items at most. */
  lemma {:induction false} EveryRunIsNormal(lines: seq<Line>, actions: seq<Action>)
    requires Normal(lines)
    ensures Normal(Run(lines, actions)) && 0 <= ItemCount(Run(lines, actions)) <= 400
    decreases |actions|
  {
    if actions == [] {
      CountIsBounded(lines);
    } else {
      ActKeeps(lines, actions[0]);
      hide Normal, Act;
      EveryRunIsNormal(Act(lines, actions[0]), actions[1..]);
    }
  }

  // ----- the button

  function Max(a: int, b: int): int {
    if a >= b then a else b
  }

  function CartLimit(maxQuantity: Option<int>): int {
    if maxQuantity.None? then MAX_QUANTITY else Min(MAX_QUANTITY, Max(0, maxQuantity.value))
  }

  /** The product's own limit cut to what the cart takes of one, which stands alone for a product without a limit. */
  lemma LimitIsCut(maximum: int)
    ensures CartLimit(None) == 20
    ensures if maximum <= 0 then CartLimit(Some(maximum)) == 0
            else CartLimit(Some(maximum)) <= maximum && CartLimit(Some(maximum)) <= 20
                 && (CartLimit(Some(maximum)) == maximum || CartLimit(Some(maximum)) == 20)
  {
  }

  function Remaining(lines: seq<Line>, ready: bool, id: Text, maxQuantity: Option<int>): int {
    Max(0, CartLimit(maxQuantity) - (if ready then QuantityOf(lines, id) else 0))
  }

  predicate ButtonEnabled(lines: seq<Line>, ready: bool, id: Text, disabled: bool, maxQuantity: Option<int>) {
    !disabled && Remaining(lines, ready, id, maxQuantity) != 0
  }

  /** A click; `chosen` is the value of the select, which is only shown with `showQuantity`. */
  function Click(lines: seq<Line>, ready: bool, id: Text, disabled: bool, maxQuantity: Option<int>, showQuantity: bool,
                 chosen: int): seq<Line> {
    if !ButtonEnabled(lines, ready, id, disabled, maxQuantity) then lines
    else
      var selected := Min(chosen, Max(1, Remaining(lines, ready, id, maxQuantity)));
      Add(lines, id, Some(if showQuantity then selected else 1))
  }

  /**
   Once the stored cart is known, a click never takes a product past its limit, nor past where it was if it was beyond.
   A click on an enabled button adds the chosen quantity, cut to what remains, unless twenty other products fill the cart.
   */
  lemma ClickStaysWithinLimit(lines: seq<Line>, id: Text, disabled: bool, maxQuantity: Option<int>, showQuantity: bool,
                              chosen: int)
    requires Normal(lines) && chosen >= 1
    ensures var after := Click(lines, true, id, disabled, maxQuantity, showQuantity, chosen);
            var limit, existing := CartLimit(maxQuantity), QuantityOf(lines, id);
            var added := QuantityOf(after, id) - existing;
            && Updated(lines, after, id, existing + added)
            && (existing <= limit ==> existing + added <= limit)
            && (existing > limit ==> added == 0)
            && (added == (if disabled || existing >= limit || (id !in Ids(lines) && |lines| == MAX_LINES) then 0
                          else if showQuantity then Min(chosen, limit - existing) else 1))
  {
    var limit, existing := CartLimit(maxQuantity), QuantityOf(lines, id);
    var after := Click(lines, true, id, disabled, maxQuantity, showQuantity, chosen);
    QuantityIsFound(lines, id);
    assert id !in Ids(lines) ==> existing == 0;
    assert existing >= 0;
    hide Add, Normal, Find, QuantityOf, ItemCount, Ids;
    if ButtonEnabled(lines, true, id, disabled, maxQuantity) {
      var selected := Min(chosen, Max(1, Remaining(lines, true, id, maxQuantity)));
      AddIsBounded(lines, id, Some(if showQuantity then selected else 1));
      assert Updated(lines, after, id, QuantityOf(after, id));
    } else {
      assert Updated(lines, lines, id, existing);
    }
    hide Updated;
  }

  /**
   Before the stored cart is known the button counts from zero. A click then takes a product past its limit, or further
   past it, exactly when the limit is a real one, the product is in the cart and not yet at the cart's own maximum, and
   what is added to it does not fit.
   */
  lemma EarlyClickPassesLimit(lines: seq<Line>, id: Text, disabled: bool, maxQuantity: Option<int>, showQuantity: bool,
                              chosen: int)
    requires Normal(lines) && chosen >= 1
    ensures var limit, existing := CartLimit(maxQuantity), QuantityOf(lines, id);
            var added := if showQuantity then Min(chosen, limit) else 1;
            QuantityOf(Click(lines, false, id, disabled, maxQuantity, showQuantity, chosen), id) > Max(limit, existing)
            <==> !disabled && 0 < limit < MAX_QUANTITY && 0 < existing < MAX_QUANTITY && existing + added > limit
  {
    var limit, existing := CartLimit(maxQuantity), QuantityOf(lines, id);
    var after := Click(lines, false, id, disabled, maxQuantity, showQuantity, chosen);
    QuantityIsFound(lines, id);
    assert existing == 0 <==> id !in Ids(lines);
    assert 0 <= existing <= MAX_QUANTITY;
    hide Add, Normal, Find, QuantityOf, ItemCount, Ids;
    if ButtonEnabled(lines, false, id, disabled, maxQuantity) {
      var selected := Min(chosen, Max(1, Remaining(lines, false, id, maxQuantity)));
      AddIsBounded(lines, id, Some(if showQuantity then selected else 1));
      assert Updated(lines, after, id, QuantityOf(after, id));
    }
    hide Updated;
  }

  /** The provider and the effect that stores every change; a browser that refuses storage keeps what was stored. */
  class ShopCartProvider {
    var lines: seq<Line>
    var stored: Option<Json>

    constructor (stored: Option<Json>)
      ensures lines == Parse(stored) && Normal(lines) && this.stored == Some(Serialize(lines))
    {
      var parsed := ParseStoredCart(stored);
      lines, this.stored := parsed, Some(Serialize(parsed));
      ParsedIsNormal(stored);
    }

    method Update(action: Action, storageWorks: bool)
      requires Normal(lines) && !action.ReloadsOther? && !action.ReloadsStored?
      modifies this
      ensures lines == Act(old(lines), action) && Normal(lines)
      ensures stored == if storageWorks then Some(Serialize(lines)) else old(stored)
    {
      ActKeeps(lines, action);
      match action {
        case Adds(id, quantity) =>
          if quantity.Some? && 1 <= quantity.value <= MAX_QUANTITY {
            if Find(lines, id).None? {
              lines := Take(lines + [Line(id, quantity.value)], MAX_LINES);
            } else {
              lines := Requantified(lines, id, old_ => Min(MAX_QUANTITY, old_ + quantity.value));
            }
          }
        case Sets(id, quantity) => lines := SetQuantity(lines, id, quantity);
        case Removes(id) => lines := Remove(lines, id);
        case Clears => lines := [];
      }
      if storageWorks {
        stored := Some(Serialize(lines));
      }
    }
  }
}
